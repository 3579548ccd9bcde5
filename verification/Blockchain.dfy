/**
 The `Blockchain` object. Its abstract value is the genesis and the set of blocks it has
 received; `ChainValid` says what the database, the tip and the in-memory state must then be.
 */
module Blocks {
  import opened Records
  import opened Chain
  import opened Reorg
  import Text

  datatype View = View(db: Store, latest: Block, latestMeta: Meta, state: Snapshot)

  /** Block `h` is stored as its parent's snapshot prepares it. */
  ghost predicate Derived(rules: Rules, rcv: map<string, Block>, db: Store, h: string)
    requires h in rcv && h in db.blocks && db.metas.Keys == db.blocks.Keys == db.snapshots.Keys
  {
    var parent := db.blocks[h].header.parentHash;
    && parent in db.blocks
    && rules.prepare(db.blocks[parent], db.snapshots[parent], rcv[h])
       == Ok(Prepared(db.blocks[h], db.snapshots[h], db.metas[h].work))
    && db.metas[h].cumulativeWork == db.metas[parent].cumulativeWork + db.metas[h].work
  }

  ghost predicate Replays(rules: Rules, g: Genesis, rcv: map<string, Block>, db: Store) {
    var root := g.block.hash;
    && Linked(db, root)
    && db.blocks[root] == g.block
    && db.snapshots[root] == g.state
    && db.metas[root].work == 0
    && db.metas[root].cumulativeWork == 0
    && (forall h :: h in rcv <==> h in db.blocks && h != root)
    && forall h {:trigger Derived(rules, rcv, db, h)} :: h in rcv ==> Derived(rules, rcv, db, h)
  }

  /** `tip` is preferred to every other stored block. */
  ghost predicate BestTip(metas: map<string, Meta>, tip: string) {
    tip in metas && forall h :: h in metas && h != tip ==> IsPreferredTip(metas[tip], metas[h])
  }

  /** The block outweighs the metadata: more work, else more height, else the hash that comes first. */
  ghost predicate Outweighs(work: nat, number: nat, hash: string, current: Meta) {
    || work > current.cumulativeWork
    || (work == current.cumulativeWork && number > current.number)
    || (work == current.cumulativeWork && number == current.number && Text.Precedes(hash, current.hash))
  }

  predicate SameRank(a: Meta, b: Meta) {
    a.cumulativeWork == b.cumulativeWork && a.number == b.number
  }

  /**
   No stored block has more cumulative work than `tip`; none of equal work stands higher; and of those
   with equal work and height, the hash of `tip` comes first in byte order.
   */
  ghost predicate Heaviest(metas: map<string, Meta>, tip: string) {
    && tip in metas
    && (forall h :: h in metas ==> metas[h].cumulativeWork <= metas[tip].cumulativeWork)
    && (forall h :: h in metas && metas[h].cumulativeWork == metas[tip].cumulativeWork ==>
          metas[h].number <= metas[tip].number)
    && (forall h :: h in metas && h != tip && SameRank(metas[h], metas[tip]) ==>
          Text.Precedes(metas[tip].hash, metas[h].hash))
  }

  lemma PreferredOutweighs(candidate: Meta, current: Meta)
    ensures IsPreferredTip(candidate, current)
       <==> Outweighs(candidate.cumulativeWork, candidate.number, candidate.hash, current)
  {
    Text.BeforeIsByteOrder(candidate.hash, current.hash);
    hide Text.Before, Text.Precedes;
  }

  /** The preferred tip is the heaviest, and only that. */
  lemma BestIsHeaviest(metas: map<string, Meta>, tip: string)
    ensures BestTip(metas, tip) <==> Heaviest(metas, tip)
  {
    hide IsPreferredTip, Text.Precedes;
    if tip in metas {
      forall h | h in metas
        ensures IsPreferredTip(metas[tip], metas[h])
           <==> Outweighs(metas[tip].cumulativeWork, metas[tip].number, metas[tip].hash, metas[h])
      {
        PreferredOutweighs(metas[tip], metas[h]);
      }
    }
  }

  ghost predicate ChainValid(rules: Rules, g: Genesis, rcv: map<string, Block>, v: View) {
    var tip := v.latest.hash;
    && Replays(rules, g, rcv, v.db)
    && tip in v.db.blocks
    && v.latest == v.db.blocks[tip]
    && v.latestMeta == v.db.metas[tip]
    && v.state == v.db.snapshots[tip]
    && v.db.latestHash == tip
    && v.db.latestNumber == v.latest.header.number
    && Indexed(v.db, g.block.hash, tip)
    && BestTip(v.db.metas, tip)
  }

  // ---------------------------------------------------------------- storing one block

  ghost predicate Extends(db: Store, block: Block, meta: Meta) {
    && block.hash != "" && block.hash !in db.blocks
    && block.header.parentHash in db.blocks
    && block.header.number == db.blocks[block.header.parentHash].header.number + 1
    && meta.hash == block.hash
    && meta.parentHash == block.header.parentHash
    && meta.number == block.header.number
  }

  function StoreArtifacts(db: Store, state: Snapshot, block: Block, meta: Meta): Store {
    db.(blocks := db.blocks[block.hash := block],
        metas := db.metas[block.hash := meta],
        snapshots := db.snapshots[block.hash := state])
  }

  lemma StoredLinked(db: Store, root: string, state: Snapshot, block: Block, meta: Meta)
    requires Linked(db, root) && Extends(db, block, meta)
    ensures Linked(StoreArtifacts(db, state, block, meta), root)
  {
    var blocks := StoreArtifacts(db, state, block, meta).blocks;
    forall h {:trigger IsChild(blocks, h)} | h in blocks && h != root
      ensures IsChild(blocks, h)
    {
      assert h != block.hash ==> IsChild(db.blocks, h);
    }
  }

  /** Storing a fresh child keeps what is derived, and derives the child. */
  lemma StoredDerived(rules: Rules, rcv: map<string, Block>, db: Store, raw: Block, p: Prepared, meta: Meta, h: string)
    requires db.metas.Keys == db.blocks.Keys == db.snapshots.Keys && Extends(db, p.block, meta)
    requires rules.prepare(db.blocks[p.block.header.parentHash], db.snapshots[p.block.header.parentHash], raw) == Ok(p)
    requires meta.work == p.work
    requires meta.cumulativeWork == db.metas[p.block.header.parentHash].cumulativeWork + p.work
    requires h == p.block.hash || (h in rcv && h in db.blocks && Derived(rules, rcv, db, h))
    ensures var out := StoreArtifacts(db, p.state, p.block, meta);
      && h in out.blocks && out.metas.Keys == out.blocks.Keys == out.snapshots.Keys
      && Derived(rules, rcv[p.block.hash := raw], out, h)
  {
    hide IsChild;
  }

  lemma StoredReplays(rules: Rules, g: Genesis, rcv: map<string, Block>, db: Store, raw: Block, p: Prepared, meta: Meta)
    requires Replays(rules, g, rcv, db) && Extends(db, p.block, meta)
    requires rules.prepare(db.blocks[p.block.header.parentHash], db.snapshots[p.block.header.parentHash], raw) == Ok(p)
    requires meta.work == p.work
    requires meta.cumulativeWork == db.metas[p.block.header.parentHash].cumulativeWork + p.work
    ensures Replays(rules, g, rcv[p.block.hash := raw], StoreArtifacts(db, p.state, p.block, meta))
  {
    hide *;
    ReplaysMeans(rules, g, rcv, db);
    var out, more := StoreArtifacts(db, p.state, p.block, meta), rcv[p.block.hash := raw];
    StoredLinked(db, g.block.hash, p.state, p.block, meta);
    StoredRoot(g, rcv, db, raw, p, meta);
    KeysAgree(out, g.block.hash);
    forall h {:trigger Derived(rules, more, out, h)} | h in more
      ensures Derived(rules, more, out, h)
    {
      if h != p.block.hash {
        assert Derived(rules, rcv, db, h);
      }
      StoredDerived(rules, rcv, db, raw, p, meta, h);
    }
    ReplaysFrom(rules, g, more, out);
  }

  ghost predicate RootStored(g: Genesis, rcv: map<string, Block>, db: Store) {
    var root := g.block.hash;
    && root in db.blocks && db.metas.Keys == db.blocks.Keys == db.snapshots.Keys
    && db.blocks[root] == g.block
    && db.snapshots[root] == g.state
    && db.metas[root].work == 0
    && db.metas[root].cumulativeWork == 0
    && (forall h :: h in rcv <==> h in db.blocks && h != root)
  }

  lemma StoredRoot(g: Genesis, rcv: map<string, Block>, db: Store, raw: Block, p: Prepared, meta: Meta)
    requires RootStored(g, rcv, db) && Extends(db, p.block, meta)
    ensures var more, out := rcv[p.block.hash := raw], StoreArtifacts(db, p.state, p.block, meta);
      RootStored(g, more, out) && forall h :: h in more ==> h in out.blocks
  {
  }

  lemma ReplaysMeans(rules: Rules, g: Genesis, rcv: map<string, Block>, db: Store)
    requires Replays(rules, g, rcv, db)
    ensures Linked(db, g.block.hash) && RootStored(g, rcv, db) && forall h :: h in rcv ==> h in db.blocks
    ensures db.metas.Keys == db.blocks.Keys == db.snapshots.Keys
    ensures forall h {:trigger Derived(rules, rcv, db, h)} :: h in rcv ==> Derived(rules, rcv, db, h)
  {
  }

  lemma ReplaysFrom(rules: Rules, g: Genesis, rcv: map<string, Block>, db: Store)
    requires Linked(db, g.block.hash) && RootStored(g, rcv, db)
    requires forall h {:trigger Derived(rules, rcv, db, h)} :: h in rcv ==> Derived(rules, rcv, db, h)
    ensures Replays(rules, g, rcv, db)
  {
  }

  lemma KeysAgree(db: Store, root: string)
    requires Linked(db, root)
    ensures root in db.blocks && db.metas.Keys == db.blocks.Keys == db.snapshots.Keys
  {
  }

  lemma StoredIndexedBut(db: Store, root: string, tip: string, state: Snapshot, block: Block, meta: Meta)
    requires Linked(db, root) && tip in db.blocks && Indexed(db, root, tip) && Extends(db, block, meta)
    ensures var out := StoreArtifacts(db, state, block, meta);
      && Linked(out, root) && IndexedBut(out, root, tip, block.hash)
      && (!meta.canonical ==> Indexed(out, root, tip))
  {
    hide Tree, Path, HeightIndex, Linked, Flagged, StoreArtifacts, Extends;
    StoredLinked(db, root, state, block, meta);
    StoredHeights(db, root, tip, state, block, meta);
    StoredFlags(db, root, tip, state, block, meta);
  }

  lemma StoredPath(db: Store, root: string, tip: string, state: Snapshot, block: Block, meta: Meta)
    requires Linked(db, root) && tip in db.blocks && Extends(db, block, meta)
    ensures var out := StoreArtifacts(db, state, block, meta);
      && Tree(db.blocks, root) && Tree(out.blocks, root) && tip in out.blocks && tip != ""
      && db.metas.Keys == db.blocks.Keys
      && Path(out.blocks, root, tip) == Path(db.blocks, root, tip)
      && forall h :: h in Path(db.blocks, root, tip) ==> h in db.metas
  {
    StoredLinked(db, root, state, block, meta);
    PathFrame(db.blocks, StoreArtifacts(db, state, block, meta).blocks, root, tip);
    PathIsChained(db, root, tip);
    HeightsWithin(db.metas, Path(db.blocks, root, tip));
    hide Path, IsChild;
  }

  lemma StoredFlags(db: Store, root: string, tip: string, state: Snapshot, block: Block, meta: Meta)
    requires Linked(db, root) && tip in db.blocks && db.metas == Flagged(db.metas, Path(db.blocks, root, tip))
    requires Extends(db, block, meta)
    ensures var out := StoreArtifacts(db, state, block, meta);
      && Tree(out.blocks, root) && tip in out.blocks && tip != ""
      && var path := Path(out.blocks, root, tip);
      && (forall h :: h in out.metas ==>
            (h in path ==> out.metas[h].canonical) && (out.metas[h].canonical ==> h in path || h == block.hash))
      && (!meta.canonical ==> out.metas == Flagged(out.metas, path))
  {
    hide Tree, Path, Linked;
    StoredPath(db, root, tip, state, block, meta);
  }

  lemma StoredHeights(db: Store, root: string, tip: string, state: Snapshot, block: Block, meta: Meta)
    requires Linked(db, root) && tip in db.blocks && db.byNumber == HeightIndex(db.blocks, root, tip)
    requires Extends(db, block, meta)
    ensures var out := StoreArtifacts(db, state, block, meta);
      Tree(out.blocks, root) && tip in out.blocks && out.byNumber == HeightIndex(out.blocks, root, tip)
  {
    hide Tree, Path, HeightIndex, Linked;
    StoredPath(db, root, tip, state, block, meta);
    var out := StoreArtifacts(db, state, block, meta);
    forall n: nat
      ensures n in HeightIndex(db.blocks, root, tip) <==> n in HeightIndex(out.blocks, root, tip)
      ensures n in HeightIndex(db.blocks, root, tip) ==>
        HeightIndex(db.blocks, root, tip)[n] == HeightIndex(out.blocks, root, tip)[n]
    {
      HeightIndexAt(db.blocks, root, tip, n);
      HeightIndexAt(out.blocks, root, tip, n);
    }
  }

  lemma RewrittenReplays(rules: Rules, g: Genesis, rcv: map<string, Block>, db: Store, tip: string, number: nat)
    requires Replays(rules, g, rcv, db) && tip in db.blocks
    ensures var out := Rewritten(db, g.block.hash, tip).(latestHash := tip, latestNumber := number);
      Replays(rules, g, rcv, out) && Indexed(out, g.block.hash, tip)
  {
    var out := Rewritten(db, g.block.hash, tip).(latestHash := tip, latestNumber := number);
    forall h {:trigger Derived(rules, rcv, out, h)} | h in rcv
      ensures Derived(rules, rcv, out, h)
    {
      assert Derived(rules, rcv, db, h);
    }
  }

  /** The flag plays no part in preference. */
  lemma PreferenceIgnoresFlags(metas: map<string, Meta>, path: seq<string>, tip: string)
    requires BestTip(metas, tip)
    ensures BestTip(Flagged(metas, path), tip)
  {
  }

  /** A block that beats the tip beats every stored block; one that does not leaves the tip best. */
  lemma StoredBestTip(metas: map<string, Meta>, tip: string, meta: Meta)
    requires BestTip(metas, tip) && meta.hash !in metas && metas[tip].hash == tip
    ensures IsPreferredTip(meta, metas[tip]) ==> BestTip(metas[meta.hash := meta], meta.hash)
    ensures !IsPreferredTip(meta, metas[tip]) ==> BestTip(metas[meta.hash := meta], tip)
  {
    if IsPreferredTip(meta, metas[tip]) {
      forall h | h in metas
        ensures IsPreferredTip(meta, metas[h])
      {
        PreferenceIsStrictTotalOrder(meta, metas[tip], metas[h]);
      }
    } else {
      PreferenceIsStrictTotalOrder(meta, metas[tip], meta);
    }
  }

  /** The object after adopting a prepared block as the tip. */
  ghost function Adopted(v: View, root: string, p: Prepared, meta: Meta): View
    requires Linked(StoreArtifacts(v.db, p.state, p.block, meta), root)
  {
    var out := StoreArtifacts(v.db, p.state, p.block, meta);
    View(Rewritten(out, root, p.block.hash).(latestHash := p.block.hash, latestNumber := p.block.header.number),
         p.block, meta, p.state)
  }

  lemma AdoptedValid(rules: Rules, g: Genesis, rcv: map<string, Block>, v: View, raw: Block, p: Prepared, meta: Meta)
    requires ChainValid(rules, g, rcv, v) && Extends(v.db, p.block, meta)
    requires rules.prepare(v.db.blocks[p.block.header.parentHash], v.db.snapshots[p.block.header.parentHash], raw)
         == Ok(p)
    requires meta.work == p.work && meta.canonical
    requires meta.cumulativeWork == v.db.metas[p.block.header.parentHash].cumulativeWork + p.work
    requires IsPreferredTip(meta, v.latestMeta)
    ensures var out := StoreArtifacts(v.db, p.state, p.block, meta);
      && Linked(out, g.block.hash)
      && IndexedBut(out, g.block.hash, v.latestMeta.hash, p.block.hash)
      && ChainValid(rules, g, rcv[p.block.hash := raw], Adopted(v, g.block.hash, p, meta))
  {
    var root := g.block.hash;
    var out, more := StoreArtifacts(v.db, p.state, p.block, meta), rcv[p.block.hash := raw];
    StoredIndexedBut(v.db, root, v.latest.hash, p.state, p.block, meta);
    StoredReplays(rules, g, rcv, v.db, raw, p, meta);
    StoredBestTip(v.db.metas, v.latest.hash, meta);
    PreferenceIgnoresFlags(out.metas, Path(out.blocks, root, p.block.hash), p.block.hash);
    RewrittenReplays(rules, g, more, out, p.block.hash, p.block.header.number);
    assert p.block.hash in Path(out.blocks, root, p.block.hash);
  }

  /** The whole effect of storing a prepared block that is not preferred. */
  lemma ParkedValid(rules: Rules, g: Genesis, rcv: map<string, Block>, v: View, raw: Block, p: Prepared, meta: Meta)
    requires ChainValid(rules, g, rcv, v) && Extends(v.db, p.block, meta)
    requires rules.prepare(v.db.blocks[p.block.header.parentHash], v.db.snapshots[p.block.header.parentHash], raw)
         == Ok(p)
    requires meta.work == p.work && !meta.canonical
    requires meta.cumulativeWork == v.db.metas[p.block.header.parentHash].cumulativeWork + p.work
    requires !IsPreferredTip(meta, v.latestMeta)
    ensures ChainValid(rules, g, rcv[p.block.hash := raw], v.(db := StoreArtifacts(v.db, p.state, p.block, meta)))
  {
    StoredIndexedBut(v.db, g.block.hash, v.latest.hash, p.state, p.block, meta);
    StoredReplays(rules, g, rcv, v.db, raw, p, meta);
    StoredBestTip(v.db.metas, v.latest.hash, meta);
  }

  // ---------------------------------------------------------------- mining

  function MinedTemplate(parent: Block, timestamp: int, miner: string, body: Body): Block {
    Block("", Header(parent.header.number + 1, parent.hash, "", timestamp, miner, "", ""), body)
  }

  /** The stored header of a received block has the stored hash as its digest. */
  lemma HeaderIsHashed(rules: Rules, g: Genesis, rcv: map<string, Block>, db: Store, h: string)
    requires Sound(rules) && Replays(rules, g, rcv, db) && h in rcv
    ensures rules.hashOf(db.blocks[h].header) == h
  {
    assert Derived(rules, rcv, db, h);
    var parent := db.blocks[h].header.parentHash;
    var stored := Prepared(db.blocks[h], db.snapshots[h], db.metas[h].work);
    assert rules.prepare(db.blocks[parent], db.snapshots[parent], rcv[h]) == Ok(stored);
    assert PreparedFits(rules.hashOf, db.blocks[parent], rcv[h], stored);
  }

  /** A stored child of the tip would have been preferred to it. */
  lemma TipHasNoChild(rules: Rules, g: Genesis, rcv: map<string, Block>, v: View, h: string)
    requires ChainValid(rules, g, rcv, v) && h in rcv
    ensures v.db.blocks[h].header.parentHash != v.latest.hash
  {
    assert Derived(rules, rcv, v.db, h);
    assert IsChild(v.db.blocks, h);
    PreferenceIsStrictTotalOrder(v.db.metas[h], v.latestMeta, v.latestMeta);
  }

  /**
   A block mined on the tip is new and preferred to the tip, so adopting it without a
   comparison is right: were its hash stored already, it would have been the tip.
   */
  lemma MinedIsNewAndPreferred(rules: Rules, g: Genesis, rcv: map<string, Block>, v: View, raw: Block, p: Prepared,
                               meta: Meta)
    requires Sound(rules) && GenesisFits(rules, g) && ChainValid(rules, g, rcv, v)
    requires rules.prepare(v.latest, v.state, raw) == Ok(p)
    requires meta.hash == p.block.hash && meta.number == p.block.header.number
    requires meta.cumulativeWork == v.latestMeta.cumulativeWork + p.work
    ensures p.block.hash != "" && p.block.hash !in v.db.blocks
    ensures IsPreferredTip(meta, v.latestMeta)
  {
    assert PreparedFits(rules.hashOf, v.latest, raw, p);
    if p.block.hash in rcv {
      HeaderIsHashed(rules, g, rcv, v.db, p.block.hash);
      TipHasNoChild(rules, g, rcv, v, p.block.hash);
    }
  }

  lemma ValidIsHeaviest(rules: Rules, g: Genesis, rcv: map<string, Block>, v: View)
    requires ChainValid(rules, g, rcv, v)
    ensures Heaviest(v.db.metas, v.latest.hash)
  {
    BestIsHeaviest(v.db.metas, v.latest.hash);
    hide Heaviest, Indexed, Replays, BestTip;
  }

  // ---------------------------------------------------------------- the object

  /** The database transaction that stores a block and moves the canonical tip to it. */
  method TipTransaction(db: Store, state: Snapshot, block: Block, meta: Meta, oldTip: string, ghost root: string)
    returns (out: Store)
    requires Linked(StoreArtifacts(db, state, block, meta), root)
    requires IndexedBut(StoreArtifacts(db, state, block, meta), root, oldTip, meta.hash)
    requires meta.hash == block.hash
    ensures out == Rewritten(StoreArtifacts(db, state, block, meta), root, block.hash)
                   .(latestHash := block.hash, latestNumber := block.header.number)
  {
    var stored := StoreArtifacts(db, state, block, meta);
    var r := RewriteCanonicalTip(stored, oldTip, meta.hash, root);
    out := r.value.(latestHash := block.hash, latestNumber := block.header.number);
  }

  class Blockchain {
    const rules: Rules
    const genesis: Genesis
    var db: Store
    var latest: Block
    var latestMeta: Meta
    var state: Snapshot
    ghost var received: map<string, Block>

    ghost function GetView(): View
      reads this
    {
      View(db, latest, latestMeta, state)
    }

    /** The tip is the heaviest stored block. */
    lemma TipIsHeaviest()
      requires Valid()
      ensures Heaviest(db.metas, latest.hash)
    {
      ValidIsHeaviest(rules, genesis, received, GetView());
      hide Sound, Heaviest;
    }

    ghost predicate Valid()
      reads this
    {
      Sound(rules) && GenesisFits(rules, genesis) && ChainValid(rules, genesis, received, GetView())
    }

    /** Opens an empty data directory: stores the genesis block as the first tip. */
    constructor (rules: Rules, genesis: Genesis)
      requires Sound(rules) && GenesisFits(rules, genesis)
      ensures Valid() && received == map[] && this.rules == rules && this.genesis == genesis
    {
      this.rules, this.genesis := rules, genesis;
      received := map[];
      var hash := genesis.block.hash;
      var meta := Meta(hash, "", 0, 0, 0, true);
      var empty := Store(map[], map[], map[], map[], "", 0);
      ghost var stored := StoreArtifacts(empty, genesis.state, genesis.block, meta);
      assert Linked(stored, hash);
      var first := TipTransaction(empty, genesis.state, genesis.block, meta, "", hash);
      db := first;
      latest, latestMeta, state := genesis.block, meta, genesis.state;
      new;
      assert Path(stored.blocks, hash, hash) == [hash];
      assert Linked(db, hash);
      assert Replays(rules, genesis, map[], db);
    }

    /** Every stored hash, the tip included, and nothing else. */
    method HasBlockHash(hash: string) returns (found: bool)
      requires Valid()
      ensures found <==> hash in db.blocks
    {
      found := hash != "" && (hash == latest.hash || hash in db.blocks);
    }

    method ParentState(block: Block) returns (r: Result<Snapshot>)
      requires Valid()
      ensures var parent := block.header.parentHash;
        r == if parent in db.blocks then Ok(db.snapshots[parent]) else Err(BlockNotFound)
    {
      var hash := block.header.parentHash;
      if hash == "" {
        return Err(BlockNotFound);
      }
      if hash == latest.hash {
        return Ok(state);
      }
      r := if hash in db.snapshots then Ok(db.snapshots[hash]) else Err(BlockNotFound);
    }

    /** The in-memory fields follow a committed transaction. */
    method Become(v: View, ghost rcv: map<string, Block>)
      requires Sound(rules) && GenesisFits(rules, genesis) && ChainValid(rules, genesis, rcv, v)
      modifies this
      ensures Valid() && GetView() == v && received == rcv
    {
      db, latest, latestMeta, state := v.db, v.latest, v.latestMeta, v.state;
      received := rcv;
      assert GetView() == v;
    }

    /** One atomic transaction, then the in-memory tip. */
    method PersistCanonicalTip(newState: Snapshot, block: Block, meta: Meta, ghost raw: Block)
      requires Valid() && Extends(db, block, meta)
      requires rules.prepare(db.blocks[block.header.parentHash], db.snapshots[block.header.parentHash], raw)
               == Ok(Prepared(block, newState, meta.work))
      requires meta.cumulativeWork == db.metas[block.header.parentHash].cumulativeWork + meta.work
      requires meta.canonical && IsPreferredTip(meta, latestMeta)
      modifies this
      ensures Valid() && received == old(received)[block.hash := raw]
      ensures latest == block && state == newState && latestMeta == meta
      ensures db.blocks == old(db).blocks[block.hash := block]
      ensures db.snapshots == old(db).snapshots[block.hash := newState]
    {
      AdoptedValid(rules, genesis, received, GetView(), raw, Prepared(block, newState, meta.work), meta);
      var after := TipTransaction(db, newState, block, meta, latestMeta.hash, genesis.block.hash);
      Become(View(after, block, meta, newState), received[block.hash := raw]);
    }

    /** Builds a block on the tip and adopts it without comparing it to anything. */
    method MineBlock(miner: string, body: Body, timestamp: int) returns (r: Result<Block>)
      requires Valid()
      modifies this
      ensures Valid() && Heaviest(db.metas, latest.hash)
      ensures var raw := MinedTemplate(old(latest), timestamp, miner, body);
        && raw.hash == "" && raw.body == body && raw.header.miner == miner && raw.header.timestamp == timestamp
        && raw.header.parentHash == old(latest).hash && raw.header.number == old(latest).header.number + 1
        && match rules.prepare(old(latest), old(state), raw)
        case Err(e) => r == Err(e) && GetView() == old(GetView()) && received == old(received)
        case Ok(p) =>
          && r == Ok(p.block) && latest == p.block && state == p.state
          && latestMeta.cumulativeWork == old(latestMeta).cumulativeWork + p.work
          && p.block.hash !in old(db).blocks
          && received == old(received)[p.block.hash := MinedFrom(rules, old(latest), old(state), raw, p)]
          && db.blocks == old(db).blocks[p.block.hash := p.block]
          && db.snapshots == old(db).snapshots[p.block.hash := p.state]
    {
      var raw := MinedTemplate(latest, timestamp, miner, body);
      var prepared := rules.prepare(latest, state, raw);
      if prepared.Err? {
        TipIsHeaviest();
        return Err(prepared.error);
      }
      var p := prepared.value;
      assert PreparedFits(rules.hashOf, latest, raw, p);
      var meta := Meta(p.block.hash, p.block.header.parentHash, p.block.header.number, p.work,
                       latestMeta.cumulativeWork + p.work, true);
      MinedIsNewAndPreferred(rules, genesis, received, GetView(), raw, p, meta);
      PersistCanonicalTip(p.state, p.block, meta, MinedFrom(rules, latest, state, raw, p));
      TipIsHeaviest();
      r := Ok(p.block);
    }

    /** Stores a received block under its parent and moves the tip only if the block is preferred. */
    method ImportBlock(block: Block) returns (err: Option<Error>)
      requires Valid()
      modifies this
      ensures Valid() && Heaviest(db.metas, latest.hash)
      ensures block.hash == "" ==> err == Some(InvalidBlock)
      ensures block.hash in old(db).blocks ==> err == None
      ensures block.hash == "" || block.hash in old(db).blocks ==>
        db == old(db) && GetView() == old(GetView()) && received == old(received)
      ensures block.hash != "" && block.hash !in old(db).blocks ==>
        var parent := block.header.parentHash;
        if parent !in old(db).blocks then
          err == Some(BlockNotFound) && db == old(db) && GetView() == old(GetView()) && received == old(received)
        else match rules.prepare(old(db).blocks[parent], old(db).snapshots[parent], block)
          case Err(e) => err == Some(e) && db == old(db) && GetView() == old(GetView()) && received == old(received)
          case Ok(p) =>
            && err == None && received == old(received)[block.hash := block]
            && db.blocks == old(db).blocks[block.hash := p.block]
            && db.snapshots == old(db).snapshots[block.hash := p.state]
            && parent in old(db).metas && block.hash in db.metas
            && var work := old(db).metas[parent].cumulativeWork + p.work;
               && db.metas[block.hash].cumulativeWork == work
               && if Outweighs(work, block.header.number, block.hash, old(latestMeta))
                  then latest == p.block && state == p.state
                  else latest == old(latest) && state == old(state)
    {
      TipIsHeaviest();
      if block.hash == "" {
        return Some(InvalidBlock);
      }
      if block.hash == latestMeta.hash || block.hash in db.metas {
        return None;
      }
      var parentHash := block.header.parentHash;
      if parentHash !in db.blocks {
        return Some(BlockNotFound);
      }
      var parent := if parentHash == latest.hash then latest else db.blocks[parentHash];
      var parentMeta := if parentHash == latestMeta.hash then latestMeta else db.metas[parentHash];
      var parentState := if parentHash == latest.hash then state else db.snapshots[parentHash];
      var prepared := rules.prepare(parent, parentState, block);
      if prepared.Err? {
        return Some(prepared.error);
      }
      var p := prepared.value;
      assert PreparedFits(rules.hashOf, parent, block, p);
      StoreImported(p, parentMeta, block);
      TipIsHeaviest();
      err := None;
    }

    /** Stores a prepared block that is not stored yet, as the new tip when it is preferred. */
    method StoreImported(p: Prepared, parentMeta: Meta, ghost raw: Block)
      requires Valid()
      requires p.block.hash != "" && p.block.hash !in db.blocks
      requires var parentHash := p.block.header.parentHash;
        && parentHash in db.blocks && parentMeta == db.metas[parentHash]
        && p.block.header.number == db.blocks[parentHash].header.number + 1
        && rules.prepare(db.blocks[parentHash], db.snapshots[parentHash], raw) == Ok(p)
      modifies this
      ensures Valid() && received == old(received)[p.block.hash := raw]
      ensures db.blocks == old(db).blocks[p.block.hash := p.block]
      ensures db.snapshots == old(db).snapshots[p.block.hash := p.state]
      ensures p.block.hash in db.metas
      ensures var work := parentMeta.cumulativeWork + p.work;
        && db.metas[p.block.hash].cumulativeWork == work
        && if Outweighs(work, p.block.header.number, p.block.hash, old(latestMeta))
           then latest == p.block && state == p.state
           else latest == old(latest) && state == old(state)
    {
      var meta := Meta(p.block.hash, p.block.header.parentHash, p.block.header.number, p.work,
                       parentMeta.cumulativeWork + p.work, false);
      var better := IsPreferredTip(meta, latestMeta);
      PreferredOutweighs(meta, latestMeta);
      meta := meta.(canonical := better);
      if better {
        PersistCanonicalTip(p.state, p.block, meta, raw);
      } else {
        ParkedValid(rules, genesis, received, GetView(), raw, p, meta);
        Become(View(StoreArtifacts(db, p.state, p.block, meta), latest, latestMeta, state),
               received[p.block.hash := raw]);
      }
    }
  }
}
