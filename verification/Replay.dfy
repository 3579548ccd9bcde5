/** What a valid chain object determines: snapshots are replays, and the received set fixes everything. */
module Replay {
  import opened Records
  import opened Chain
  import opened Blocks

  /** Applying blocks one after another from the genesis, adding up their work. */
  ghost function ReplayFrom(rules: Rules, g: Genesis, bs: seq<Block>): Result<Prepared>
    decreases |bs|
  {
    if bs == [] then Ok(Prepared(g.block, g.state, 0))
    else
      match ReplayFrom(rules, g, bs[..|bs| - 1])
      case Err(e) => Err(e)
      case Ok(p) =>
        match rules.prepare(p.block, p.state, bs[|bs| - 1])
        case Err(e) => Err(e)
        case Ok(next) => Ok(next.(work := p.work + next.work))
  }

  /** The received blocks above the root on a path. */
  ghost function ReceivedOn(rcv: map<string, Block>, path: seq<string>): (r: seq<Block>)
    requires path != [] && forall n :: 0 < n < |path| ==> path[n] in rcv
    ensures |r| == |path| - 1 && forall n :: 0 <= n < |r| ==> r[n] == rcv[path[n + 1]]
  {
    seq(|path| - 1, n requires 0 <= n < |path| - 1 => rcv[path[n + 1]])
  }

  lemma PathIsReceived(rules: Rules, g: Genesis, rcv: map<string, Block>, db: Store, h: string)
    requires Replays(rules, g, rcv, db) && h in db.blocks
    ensures var path := Path(db.blocks, g.block.hash, h); forall n :: 0 < n < |path| ==> path[n] in rcv
  {
    var path := Path(db.blocks, g.block.hash, h);
    forall n | 0 < n < |path|
      ensures path[n] in rcv
    {
      PathAt(db.blocks, g.block.hash, h, n);
    }
  }

  /** Every stored block, snapshot and cumulative work is the replay of the received blocks on its path. */
  lemma {:induction false} SnapshotIsReplay(rules: Rules, g: Genesis, rcv: map<string, Block>, db: Store, h: string)
    requires Replays(rules, g, rcv, db) && h in db.blocks
    ensures var path := Path(db.blocks, g.block.hash, h);
      && (forall n :: 0 < n < |path| ==> path[n] in rcv)
      && ReplayFrom(rules, g, ReceivedOn(rcv, path))
         == Ok(Prepared(db.blocks[h], db.snapshots[h], db.metas[h].cumulativeWork))
    decreases db.blocks[h].header.number
  {
    var root := g.block.hash;
    PathIsReceived(rules, g, rcv, db, h);
    if h != root {
      var parent := db.blocks[h].header.parentHash;
      assert IsChild(db.blocks, h);
      assert Derived(rules, rcv, db, h);
      SnapshotIsReplay(rules, g, rcv, db, parent);
      var path, up := Path(db.blocks, root, h), Path(db.blocks, root, parent);
      assert path == up + [h];
      var bs := ReceivedOn(rcv, path);
      assert bs[..|bs| - 1] == ReceivedOn(rcv, up);
    }
  }

  /** `rcv` holds some of the blocks of `all`, unchanged. */
  ghost predicate PartOf(rcv: map<string, Block>, all: map<string, Block>) {
    forall h :: h in rcv ==> h in all && rcv[h] == all[h]
  }

  /**
   The stored block, snapshot and work of a hash depend only on the received blocks, not on how
   many more there are.
   */
  lemma {:induction false} SameAt(rules: Rules, g: Genesis, rcv: map<string, Block>, all: map<string, Block>,
                                  a: Store, b: Store, h: string)
    requires Sound(rules) && Replays(rules, g, rcv, a) && Replays(rules, g, all, b) && PartOf(rcv, all) && h in a.blocks
    ensures h in b.blocks
    ensures a.blocks[h] == b.blocks[h] && a.snapshots[h] == b.snapshots[h]
    ensures a.metas[h].(canonical := false) == b.metas[h].(canonical := false)
    decreases a.blocks[h].header.number
  {
    hide *;
    ReplaysMeans(rules, g, rcv, a);
    ReplaysMeans(rules, g, all, b);
    if h == g.block.hash {
      RootMeta(a, g.block.hash);
      RootMeta(b, g.block.hash);
      RootsSame(g, rcv, a, all, b);
    } else {
      ReceivedStored(g, rcv, a, h);
      ReceivedStored(g, all, b, h);
      InBoth(rcv, all, h);
      MetaFields(a, g.block.hash, h);
      MetaFields(b, g.block.hash, h);
      ParentIsNamed(rules, rcv, a, h);
      ParentIsNamed(rules, all, b, h);
      SameAt(rules, g, rcv, all, a, b, rcv[h].header.parentHash);
      SameChild(rules, rcv, all, a, b, h);
    }
  }

  lemma InBoth(rcv: map<string, Block>, all: map<string, Block>, h: string)
    requires PartOf(rcv, all) && h in rcv
    ensures h in all && all[h] == rcv[h]
  {
  }

  lemma ReceivedStored(g: Genesis, rcv: map<string, Block>, db: Store, h: string)
    requires RootStored(g, rcv, db)
    ensures h in rcv <==> h in db.blocks && h != g.block.hash
  {
  }

  lemma RootsSame(g: Genesis, rcv: map<string, Block>, a: Store, all: map<string, Block>, b: Store)
    requires RootStored(g, rcv, a) && RootStored(g, all, b)
    requires FieldsMatch(a, g.block.hash) && FieldsMatch(b, g.block.hash)
    ensures var h := g.block.hash;
      a.blocks[h] == b.blocks[h] && a.snapshots[h] == b.snapshots[h]
      && a.metas[h].(canonical := false) == b.metas[h].(canonical := false)
  {
  }

  /** The metadata of a block repeats the links of its header. */
  ghost predicate FieldsMatch(db: Store, h: string) {
    && h in db.blocks && h in db.metas && h in db.snapshots
    && db.blocks[h].hash == h
    && db.metas[h].hash == h
    && db.metas[h].parentHash == db.blocks[h].header.parentHash
    && db.metas[h].number == db.blocks[h].header.number
  }

  lemma RootMeta(db: Store, root: string)
    requires Linked(db, root)
    ensures FieldsMatch(db, root)
  {
  }

  lemma MetaFields(db: Store, root: string, h: string)
    requires Linked(db, root) && h in db.blocks && h != root
    ensures FieldsMatch(db, h) && (forall k :: k in db.blocks ==> db.blocks[k].hash == k)
    ensures db.blocks[h].header.parentHash in db.blocks
    ensures db.blocks[db.blocks[h].header.parentHash].header.number < db.blocks[h].header.number
  {
    assert IsChild(db.blocks, h);
  }

  /** What is derived from the same received block under the same parent is the same. */
  lemma SameChild(rules: Rules, rcv: map<string, Block>, all: map<string, Block>, a: Store, b: Store, h: string)
    requires h in rcv && h in all && rcv[h] == all[h] && FieldsMatch(a, h) && FieldsMatch(b, h)
    requires a.metas.Keys == a.blocks.Keys == a.snapshots.Keys && b.metas.Keys == b.blocks.Keys == b.snapshots.Keys
    requires Derived(rules, rcv, a, h) && Derived(rules, all, b, h)
    requires var parent := rcv[h].header.parentHash;
      && a.blocks[h].header.parentHash == parent == b.blocks[h].header.parentHash
      && parent in b.blocks && a.blocks[parent] == b.blocks[parent] && a.snapshots[parent] == b.snapshots[parent]
      && a.metas[parent].(canonical := false) == b.metas[parent].(canonical := false)
    ensures a.blocks[h] == b.blocks[h] && a.snapshots[h] == b.snapshots[h]
    ensures a.metas[h].(canonical := false) == b.metas[h].(canonical := false)
  {
    var parent := rcv[h].header.parentHash;
    assert a.metas[parent].cumulativeWork == b.metas[parent].(canonical := false).cumulativeWork;
  }

  lemma ParentIsNamed(rules: Rules, rcv: map<string, Block>, db: Store, h: string)
    requires Sound(rules) && h in rcv && h in db.blocks && db.metas.Keys == db.blocks.Keys == db.snapshots.Keys
    requires Derived(rules, rcv, db, h)
    requires forall k :: k in db.blocks ==> db.blocks[k].hash == k
    ensures db.blocks[h].header.parentHash == rcv[h].header.parentHash
    ensures db.blocks[h].header.number == rcv[h].header.number
  {
    var parent := db.blocks[h].header.parentHash;
    var p := Prepared(db.blocks[h], db.snapshots[h], db.metas[h].work);
    assert rules.prepare(db.blocks[parent], db.snapshots[parent], rcv[h]) == Ok(p);
    assert PreparedFits(rules.hashOf, db.blocks[parent], rcv[h], p);
  }

  /** Two best tips of the same metadata are the same block. */
  lemma BestTipUnique(a: map<string, Meta>, b: map<string, Meta>, s: string, t: string)
    requires a.Keys == b.Keys && BestTip(a, s) && BestTip(b, t)
    requires forall h :: h in a ==> a[h].hash == h && a[h].(canonical := false) == b[h].(canonical := false)
    ensures s == t
  {
    if s != t {
      assert IsPreferredTip(a[s], a[t]) && IsPreferredTip(b[t], b[s]);
      PreferenceIsStrictTotalOrder(a[s], a[t], a[s]);
    }
  }

  lemma StoresAgree(rules: Rules, g: Genesis, rcv: map<string, Block>, a: Store, b: Store)
    requires Sound(rules) && Replays(rules, g, rcv, a) && Replays(rules, g, rcv, b)
    ensures a.blocks == b.blocks && a.snapshots == b.snapshots && a.metas.Keys == b.metas.Keys
    ensures forall h :: h in a.metas ==> a.metas[h].(canonical := false) == b.metas[h].(canonical := false)
  {
    hide *;
    ReplaysMeans(rules, g, rcv, a);
    ReplaysMeans(rules, g, rcv, b);
    StoreWithin(rules, g, rcv, b, a);
    StoreWithin(rules, g, rcv, a, b);
  }

  lemma StoreWithin(rules: Rules, g: Genesis, rcv: map<string, Block>, a: Store, b: Store)
    requires Sound(rules) && Replays(rules, g, rcv, a) && Replays(rules, g, rcv, b)
    requires a.metas.Keys == a.blocks.Keys == a.snapshots.Keys && b.metas.Keys == b.blocks.Keys == b.snapshots.Keys
    ensures forall h :: h in a.blocks ==> h in b.blocks && a.blocks[h] == b.blocks[h]
    ensures forall h :: h in a.blocks ==> a.snapshots[h] == b.snapshots[h]
    ensures forall h :: h in a.blocks ==> a.metas[h].(canonical := false) == b.metas[h].(canonical := false)
  {
    assert PartOf(rcv, rcv);
    hide *;
    forall h | h in a.blocks
      ensures h in b.blocks && a.blocks[h] == b.blocks[h] && a.snapshots[h] == b.snapshots[h]
      ensures a.metas[h].(canonical := false) == b.metas[h].(canonical := false)
    {
      SameAt(rules, g, rcv, rcv, a, b, h);
    }
  }

  /**
   Whatever the history of mining, importing and reorganising, two valid objects with the
   same genesis that hold the same received blocks agree on everything: tip, in-memory
   state, height index, canonical flags, metadata and snapshots.
   */
  lemma ReceivedDeterminesChain(rules: Rules, g: Genesis, rcv: map<string, Block>, v: View, w: View)
    requires Sound(rules) && ChainValid(rules, g, rcv, v) && ChainValid(rules, g, rcv, w)
    ensures v == w
  {
    hide *;
    ChainParts(rules, g, rcv, v);
    ChainParts(rules, g, rcv, w);
    StoresAgree(rules, g, rcv, v.db, w.db);
    ViewsAgree(rules, g, rcv, v, rcv, w);
  }

  lemma ChainParts(rules: Rules, g: Genesis, rcv: map<string, Block>, v: View)
    requires ChainValid(rules, g, rcv, v)
    ensures Replays(rules, g, rcv, v.db)
  {
    hide Replays;
  }

  /** The stored blocks, snapshots and metadata but for its flags fix the rest of a valid object. */
  lemma ViewsAgree(rules: Rules, g: Genesis, rcv: map<string, Block>, v: View, rcv': map<string, Block>, w: View)
    requires ChainValid(rules, g, rcv, v) && ChainValid(rules, g, rcv', w)
    requires v.db.blocks == w.db.blocks && v.db.snapshots == w.db.snapshots && v.db.metas.Keys == w.db.metas.Keys
    requires forall h :: h in v.db.metas ==> v.db.metas[h].(canonical := false) == w.db.metas[h].(canonical := false)
    ensures v == w
  {
    hide Tree, Derived;
    var a, b := v.db, w.db;
    BestTipUnique(a.metas, b.metas, v.latest.hash, w.latest.hash);
    FlagsAgree(a.metas, b.metas, Path(a.blocks, g.block.hash, v.latest.hash));
    assert a.byNumber == b.byNumber;
  }

  lemma FlagsAgree(a: map<string, Meta>, b: map<string, Meta>, path: seq<string>)
    requires a.Keys == b.Keys && a == Flagged(a, path) && b == Flagged(b, path)
    requires forall h :: h in a ==> a[h].(canonical := false) == b[h].(canonical := false)
    ensures a == b
  {
    forall h | h in a
      ensures a[h] == b[h]
    {
      assert Flagged(a, path)[h].canonical == Flagged(b, path)[h].canonical;
    }
  }
}
