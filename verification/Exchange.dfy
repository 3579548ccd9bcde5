/** Two nodes with histories of their own that are given each other's stored blocks. */
module Exchange {
  import opened Records
  import opened Chain
  import opened Blocks
  import opened Replay
  import opened Orphans
  import opened Worklist
  import opened Sync
  import opened Convergence
  import opened Peers

  // ---------------------------------------------------------------- the conditions

  /** Both hold the block, its snapshot and its work alike. */
  ghost predicate SameEntry(a: Store, b: Store, h: string) {
    && h in a.blocks && h in a.snapshots && h in a.metas
    && h in b.blocks && h in b.snapshots && h in b.metas
    && a.blocks[h] == b.blocks[h]
    && a.snapshots[h] == b.snapshots[h]
    && a.metas[h].(canonical := false) == b.metas[h].(canonical := false)
  }

  /** What both nodes store they store alike. */
  ghost predicate Agree(a: Store, b: Store) {
    forall h :: h in a.blocks && h in b.blocks ==> SameEntry(a, b, h)
  }

  /** The stored form prepares again to what is stored, and the validator approves it. */
  ghost predicate Acceptable(rules: Rules, validate: Validator, rcv: map<string, Block>, db: Store, h: string) {
    && db.metas.Keys == db.blocks.Keys == db.snapshots.Keys
    && h in rcv && h in db.blocks
    && Derived(rules, StoredForms(rcv, db), db, h)
    && Approves(validate, db.snapshots[db.blocks[h].header.parentHash], db.blocks[h])
  }

  /** Each block that one node stores and the other does not is acceptable. */
  ghost predicate NewAcceptable(rules: Rules, validate: Validator, other: Store, rcv: map<string, Block>, db: Store) {
    forall h :: h in rcv && h !in other.blocks ==> Acceptable(rules, validate, rcv, db, h)
  }

  /** Every parked block is a stored one of the other node, and neither it nor its parent is stored here. */
  ghost predicate Awaits(db: Store, parked: map<string, Block>, forms: map<string, Block>) {
    && PartOf(parked, forms)
    && forall h :: h in parked ==> h !in db.blocks && parked[h].header.parentHash !in db.blocks
  }

  // ---------------------------------------------------------------- the two stores together

  ghost function Union(a: Store, b: Store): Store {
    Store(a.blocks + b.blocks, a.metas + b.metas, a.snapshots + b.snapshots, map[], "", 0)
  }

  /** What the first node has received once it has all of the second. */
  ghost function Joined(a: Store, rcv: map<string, Block>, other: map<string, Block>, b: Store): map<string, Block> {
    map h | h in rcv.Keys + other.Keys && (h in rcv || h in b.blocks) :: if h in rcv then rcv[h] else b.blocks[h]
  }

  lemma UnionIsTree(a: map<string, Block>, b: map<string, Block>, root: string)
    requires Tree(a, root) && Tree(b, root) && forall h :: h in a && h in b ==> a[h] == b[h]
    ensures Tree(a + b, root)
  {
    var u := a + b;
    forall h {:trigger IsChild(u, h)} | h in u && h != root
      ensures IsChild(u, h)
    {
      if h in a {
        assert IsChild(a, h);
      } else {
        assert IsChild(b, h);
      }
    }
  }

  lemma UnionLinked(a: Store, b: Store, root: string)
    requires Linked(a, root) && Linked(b, root) && Agree(a, b)
    ensures Linked(Union(a, b), root)
  {
    LinkedParts(a, root);
    LinkedParts(b, root);
    AgreeingBlocks(a, b);
    hide *;
    UnionIsTree(a.blocks, b.blocks, root);
    var u := Union(a, b);
    UnionParts(a, b);
    forall h | h in u.metas
      ensures MetaLinks(u, h)
    {
      if h in b.metas {
        LinksMove(b, u, h);
      } else {
        LinksMove(a, u, h);
      }
    }
    LinkedFrom(u, root);
  }

  /** The metadata of `h` repeats its links. */
  ghost predicate MetaLinks(db: Store, h: string) {
    && h in db.metas && h in db.blocks
    && db.metas[h].hash == h
    && db.metas[h].parentHash == db.blocks[h].header.parentHash
    && db.metas[h].number == db.blocks[h].header.number
  }

  lemma LinkedParts(db: Store, root: string)
    requires Linked(db, root)
    ensures Tree(db.blocks, root) && db.metas.Keys == db.blocks.Keys == db.snapshots.Keys
    ensures forall h :: h in db.metas ==> MetaLinks(db, h)
  {
    hide Tree;
  }

  lemma LinkedFrom(db: Store, root: string)
    requires Tree(db.blocks, root) && db.metas.Keys == db.blocks.Keys == db.snapshots.Keys
    requires forall h :: h in db.metas ==> MetaLinks(db, h)
    ensures Linked(db, root)
  {
    hide Tree;
  }

  lemma AgreeingBlocks(a: Store, b: Store)
    requires Agree(a, b)
    ensures forall h :: h in a.blocks && h in b.blocks ==> a.blocks[h] == b.blocks[h]
  {
    assert forall h :: h in a.blocks && h in b.blocks ==> SameEntry(a, b, h);
  }

  lemma UnionParts(a: Store, b: Store)
    requires a.metas.Keys == a.blocks.Keys == a.snapshots.Keys && b.metas.Keys == b.blocks.Keys == b.snapshots.Keys
    ensures var u := Union(a, b);
      && u.blocks == a.blocks + b.blocks && u.metas == a.metas + b.metas && u.snapshots == a.snapshots + b.snapshots
      && u.metas.Keys == u.blocks.Keys == u.snapshots.Keys
  {
  }

  lemma LinksMove(db: Store, u: Store, h: string)
    requires MetaLinks(db, h) && h in u.metas && u.metas[h] == db.metas[h]
    requires h in u.blocks && u.blocks[h] == db.blocks[h]
    ensures MetaLinks(u, h)
  {
  }

  /** The union holds whatever either holds. */
  lemma UnionHolds(a: Store, b: Store, h: string)
    requires a.metas.Keys == a.blocks.Keys == a.snapshots.Keys && b.metas.Keys == b.blocks.Keys == b.snapshots.Keys
    requires Agree(a, b)
    ensures h in a.blocks ==> SameEntry(Union(a, b), a, h)
    ensures h in b.blocks ==> SameEntry(Union(a, b), b, h)
  {
    assert h in a.blocks && h in b.blocks ==> SameEntry(a, b, h);
  }

  /** What is derived in a store is derived in any store that holds the same entries. */
  lemma DerivedMoves(rules: Rules, rcv: map<string, Block>, db: Store, more: map<string, Block>, u: Store, h: string)
    requires h in rcv && h in db.blocks && db.metas.Keys == db.blocks.Keys == db.snapshots.Keys
    requires Derived(rules, rcv, db, h)
    requires h in more && more[h] == rcv[h] && u.metas.Keys == u.blocks.Keys == u.snapshots.Keys
    requires SameEntry(u, db, h) && SameEntry(u, db, db.blocks[h].header.parentHash)
    ensures Derived(rules, more, u, h)
  {
    var parent := db.blocks[h].header.parentHash;
    assert u.metas[h].(canonical := false).work == u.metas[h].work;
    assert u.metas[h].(canonical := false).cumulativeWork == u.metas[h].cumulativeWork;
    assert u.metas[parent].(canonical := false).cumulativeWork == u.metas[parent].cumulativeWork;
  }

  lemma DerivedParent(rules: Rules, rcv: map<string, Block>, db: Store, h: string)
    requires h in rcv && h in db.blocks && db.metas.Keys == db.blocks.Keys == db.snapshots.Keys
    requires Derived(rules, rcv, db, h)
    ensures db.blocks[h].header.parentHash in db.blocks
  {
  }

  lemma AcceptableParts(rules: Rules, validate: Validator, rcv: map<string, Block>, db: Store, h: string)
    requires Acceptable(rules, validate, rcv, db, h)
    ensures h in StoredForms(rcv, db) && StoredForms(rcv, db)[h] == db.blocks[h]
    ensures db.metas.Keys == db.blocks.Keys == db.snapshots.Keys && Derived(rules, StoredForms(rcv, db), db, h)
    ensures db.blocks[h].header.parentHash in db.blocks
    ensures Approves(validate, db.snapshots[db.blocks[h].header.parentHash], db.blocks[h])
  {
  }

  lemma JoinedRoot(g: Genesis, a: Store, rcv: map<string, Block>, other: map<string, Block>, b: Store)
    requires RootStored(g, rcv, a) && RootStored(g, other, b) && Agree(a, b)
    ensures RootStored(g, Joined(a, rcv, other, b), Union(a, b))
    ensures forall h :: h in Joined(a, rcv, other, b) ==> h in Union(a, b).blocks
  {
    assert SameEntry(a, b, g.block.hash);
  }

  lemma JoinedAt(a: Store, rcv: map<string, Block>, other: map<string, Block>, b: Store, h: string)
    ensures h in rcv ==> h in Joined(a, rcv, other, b) && Joined(a, rcv, other, b)[h] == rcv[h]
    ensures h in other && h in b.blocks && h !in rcv ==>
      h in Joined(a, rcv, other, b) && Joined(a, rcv, other, b)[h] == b.blocks[h]
    ensures h in Joined(a, rcv, other, b) ==> h in rcv || (h in other && h in b.blocks)
  {
  }

  /** The union is the tree of the joined blocks. */
  lemma JoinedReplays(rules: Rules, g: Genesis, validate: Validator, a: Store, rcv: map<string, Block>,
                      other: map<string, Block>, b: Store)
    requires Replays(rules, g, rcv, a) && Replays(rules, g, other, b) && Agree(a, b)
    requires NewAcceptable(rules, validate, a, other, b)
    ensures Replays(rules, g, Joined(a, rcv, other, b), Union(a, b))
  {
    ReplaysMeans(rules, g, rcv, a);
    ReplaysMeans(rules, g, other, b);
    hide *;
    var all, u := Joined(a, rcv, other, b), Union(a, b);
    UnionLinked(a, b, g.block.hash);
    KeysAgree(u, g.block.hash);
    JoinedRoot(g, a, rcv, other, b);
    forall h {:trigger Derived(rules, all, u, h)} | h in all
      ensures Derived(rules, all, u, h)
    {
      JoinedAt(a, rcv, other, b, h);
      UnionHolds(a, b, h);
      if h in rcv {
        assert Derived(rules, rcv, a, h);
        DerivedParent(rules, rcv, a, h);
        UnionHolds(a, b, a.blocks[h].header.parentHash);
        DerivedMoves(rules, rcv, a, all, u, h);
      } else {
        NewIsAcceptable(rules, g, validate, a, rcv, other, b, h);
        AcceptableParts(rules, validate, other, b, h);
        UnionHolds(a, b, b.blocks[h].header.parentHash);
        DerivedMoves(rules, StoredForms(other, b), b, all, u, h);
      }
    }
    ReplaysFrom(rules, g, all, u);
  }

  lemma NewIsAcceptable(rules: Rules, g: Genesis, validate: Validator, a: Store, rcv: map<string, Block>,
                        other: map<string, Block>, b: Store, h: string)
    requires RootStored(g, rcv, a) && RootStored(g, other, b)
    requires NewAcceptable(rules, validate, a, other, b) && h in other && h !in rcv
    ensures h !in a.blocks && Acceptable(rules, validate, other, b, h)
  {
    hide Acceptable;
  }

  /** They are a valid set for the first node. */
  lemma JoinedIsValid(rules: Rules, g: Genesis, validate: Validator, a: Store, rcv: map<string, Block>,
                      other: map<string, Block>, b: Store)
    requires Replays(rules, g, rcv, a) && Replays(rules, g, other, b) && Agree(a, b)
    requires NewAcceptable(rules, validate, a, other, b)
    ensures ValidSet(rules, g, validate, a.blocks.Keys, Joined(a, rcv, other, b), Union(a, b))
  {
    JoinedReplays(rules, g, validate, a, rcv, other, b);
    ReplaysMeans(rules, g, rcv, a);
    ReplaysMeans(rules, g, other, b);
    HashesOfBlocks(rules, g, other, b);
    hide *;
    var all, u := Joined(a, rcv, other, b), Union(a, b);
    forall h | h in all && h !in a.blocks.Keys
      ensures all[h].hash == h && all[h].header.parentHash in u.snapshots
      ensures Approves(validate, u.snapshots[all[h].header.parentHash], all[h])
    {
      JoinedAt(a, rcv, other, b, h);
      NewIsAcceptable(rules, g, validate, a, rcv, other, b, h);
      AcceptableParts(rules, validate, other, b, h);
      UnionHolds(a, b, b.blocks[h].header.parentHash);
      EntrySnapshot(u, b, b.blocks[h].header.parentHash);
    }
    ValidFrom(rules, g, validate, a.blocks.Keys, all, u);
  }

  lemma EntrySnapshot(a: Store, b: Store, h: string)
    requires SameEntry(a, b, h)
    ensures h in a.snapshots && h in b.snapshots && a.snapshots[h] == b.snapshots[h]
    ensures h in a.blocks && h in b.blocks && a.blocks[h] == b.blocks[h]
  {
  }

  lemma ValidFrom(rules: Rules, g: Genesis, validate: Validator, held: set<string>, all: map<string, Block>,
                  ideal: Store)
    requires Replays(rules, g, all, ideal)
    requires forall h :: h in all && h !in held ==> all[h].hash == h && all[h].header.parentHash in ideal.snapshots
    requires forall h :: h in all && h !in held ==>
      Approves(validate, ideal.snapshots[all[h].header.parentHash], all[h])
    ensures ValidSet(rules, g, validate, held, all, ideal)
  {
    hide Replays, Approves;
  }

  // ---------------------------------------------------------------- one node is fed

  ghost function Knowledge(rcv: map<string, Block>, db: Store): Known {
    Known(rcv, db.blocks, db.snapshots)
  }

  lemma StartsSynced(g: Genesis, a: Store, rcv: map<string, Block>, other: map<string, Block>, b: Store,
                     parked: map<string, Block>)
    requires RootStored(g, rcv, a) && Awaits(a, parked, StoredForms(other, b))
    requires forall h :: h in rcv ==> h in a.blocks
    ensures Synced(g.block.hash, Joined(a, rcv, other, b), rcv.Keys + parked.Keys, rcv, parked)
    ensures PartOf(rcv, Joined(a, rcv, other, b)) && PartOf(parked, Joined(a, rcv, other, b))
  {
  }

  lemma UnionMatches(g: Genesis, a: Store, rcv: map<string, Block>, other: map<string, Block>, b: Store)
    requires RootStored(g, rcv, a) && RootStored(g, other, b) && Agree(a, b) && "" !in a.blocks
    ensures Matches(g.block.hash, Knowledge(rcv, a), Union(a, b))
  {
    forall h | h in a.blocks
      ensures SameEntry(Union(a, b), a, h)
    {
      UnionHolds(a, b, h);
    }
  }

  /** The delivered blocks with the parked ones cover the joined set. */
  lemma Covers(a: Store, rcv: map<string, Block>, other: map<string, Block>, b: Store, parked: map<string, Block>,
               order: seq<Block>)
    requires StoredForms(other, b).Keys <= Hashes(order)
    ensures Joined(a, rcv, other, b).Keys <= rcv.Keys + parked.Keys + Hashes(order)
  {
    hide Hashes;
    var forms := StoredForms(other, b);
    forall h | h in Joined(a, rcv, other, b)
      ensures h in rcv.Keys + parked.Keys + Hashes(order)
    {
      if h !in rcv {
        assert h in forms.Keys;
      }
    }
  }

  lemma AllDeliverable(a: Store, rcv: map<string, Block>, other: map<string, Block>, b: Store, g: Genesis,
                       order: seq<Block>)
    requires RootStored(g, rcv, a)
    requires forall x :: x in order ==> Deliverable(JustGenesis(g), StoredForms(other, b), x)
    ensures forall x :: x in order ==> Deliverable(a.blocks.Keys, Joined(a, rcv, other, b), x)
  {
  }

  /** A node whose peer's blocks are all acceptable to it and agree with its own ends with both stores. */
  lemma Fed(rules: Rules, g: Genesis, validate: Validator, a: Store, rcv: map<string, Block>,
            parked: map<string, Block>, other: map<string, Block>, b: Store, order: seq<Block>, d: Delivered, a': Store)
    requires Sound(rules) && Replays(rules, g, rcv, a) && Replays(rules, g, other, b) && Agree(a, b)
    requires NewAcceptable(rules, validate, a, other, b)
    requires ByHash(parked) && Awaits(a, parked, StoredForms(other, b))
    requires forall x :: x in order ==> Deliverable(JustGenesis(g), StoredForms(other, b), x)
    requires StoredForms(other, b).Keys <= Hashes(order)
    requires d == DriveAll(rules, validate, Knowledge(rcv, a), parked, order)
    requires Replays(rules, g, d.known.received, a')
    ensures d.clean && d.parked == map[]
    ensures a'.blocks == Union(a, b).blocks && a'.snapshots == Union(a, b).snapshots
    ensures a'.metas.Keys == Union(a, b).metas.Keys
    ensures forall h :: h in a'.metas ==> a'.metas[h].(canonical := false) == Union(a, b).metas[h].(canonical := false)
  {
    ReplaysMeans(rules, g, rcv, a);
    ReplaysMeans(rules, g, other, b);
    ReceivedHashes(rules, g, rcv, a);
    hide *;
    var all, u := Joined(a, rcv, other, b), Union(a, b);
    JoinedIsValid(rules, g, validate, a, rcv, other, b);
    JoinedReplays(rules, g, validate, a, rcv, other, b);
    StartsSynced(g, a, rcv, other, b, parked);
    UnionMatches(g, a, rcv, other, b);
    AllDeliverable(a, rcv, other, b, g, order);
    KnowledgeKeys(rcv, a);
    HonestDeliveries(rules, g, validate, a.blocks.Keys, all, u, rcv.Keys + parked.Keys, Knowledge(rcv, a), parked,
                     order);
    Covers(a, rcv, other, b, parked, order);
    EverythingStored(rules, g, all, u, rcv.Keys + parked.Keys + Hashes(order), d.known.received, d.parked, a');
    StoresAgree(rules, g, all, a', u);
  }

  lemma KnowledgeKeys(rcv: map<string, Block>, db: Store)
    ensures Knowledge(rcv, db).blocks.Keys == db.blocks.Keys && Knowledge(rcv, db).received == rcv
    ensures Knowledge(rcv, db).blocks == db.blocks && Knowledge(rcv, db).snapshots == db.snapshots
  {
  }

  /** The order of a union does not matter where the stores agree. */
  lemma UnionCommutes(a: Store, b: Store)
    requires a.metas.Keys == a.blocks.Keys == a.snapshots.Keys && b.metas.Keys == b.blocks.Keys == b.snapshots.Keys
    requires Agree(a, b)
    ensures Union(a, b).blocks == Union(b, a).blocks && Union(a, b).snapshots == Union(b, a).snapshots
    ensures Union(a, b).metas.Keys == Union(b, a).metas.Keys
    ensures forall h :: h in Union(a, b).metas ==>
      Union(a, b).metas[h].(canonical := false) == Union(b, a).metas[h].(canonical := false)
  {
    hide *;
    UnionParts(a, b);
    UnionParts(b, a);
    AgreeBack(a, b);
    var u, w := Union(a, b), Union(b, a);
    forall h | h in u.blocks
      ensures SameEntry(u, w, h)
    {
      UnionHolds(a, b, h);
      UnionHolds(b, a, h);
      if h in a.blocks {
        Through(u, a, w, h);
      } else {
        Through(u, b, w, h);
      }
    }
    EntriesGiveMaps(u, w);
  }

  lemma Through(a: Store, db: Store, b: Store, h: string)
    requires SameEntry(a, db, h) && SameEntry(b, db, h)
    ensures SameEntry(a, b, h)
  {
  }

  lemma EntriesGiveMaps(a: Store, b: Store)
    requires a.metas.Keys == a.blocks.Keys == a.snapshots.Keys && b.metas.Keys == b.blocks.Keys == b.snapshots.Keys
    requires a.blocks.Keys == b.blocks.Keys && forall h :: h in a.blocks ==> SameEntry(a, b, h)
    ensures a.blocks == b.blocks && a.snapshots == b.snapshots
    ensures forall h :: h in a.metas ==> a.metas[h].(canonical := false) == b.metas[h].(canonical := false)
  {
  }

  // ---------------------------------------------------------------- what equality tells

  /** Deliveries forget nothing. */
  lemma {:induction false} DeliveriesContinue(rules: Rules, validate: Validator, k: Known, parked: map<string, Block>,
                                              blocks: seq<Block>)
    requires Settled(k) && ByHash(parked)
    ensures var d := DriveAll(rules, validate, k, parked, blocks);
      && Settled(d.known)
      && (forall h :: h in k.received ==> h in d.known.received && d.known.received[h] == k.received[h])
    decreases |blocks|
  {
    hide *;
    if blocks == [] {
      NoDeliveries(rules, validate, k, parked);
    } else {
      var n := |blocks| - 1;
      DeliveriesContinue(rules, validate, k, parked, blocks[..n]);
      var d := DriveAll(rules, validate, k, parked, blocks[..n]);
      DriveAllStep(rules, validate, k, parked, blocks, n);
      assert blocks[..n + 1] == blocks;
      DeliveryKeeps(rules, validate, d.known, d.parked, blocks[n]);
      ContinuesReceived(d.known, Drive(rules, validate, d.known, d.parked, [blocks[n]]).known);
    }
  }

  lemma ContinuesReceived(k: Known, more: Known)
    requires Continues(k, more)
    ensures forall h :: h in k.received ==> h in more.received && more.received[h] == k.received[h]
  {
  }

  /** A node keeps every entry it has, whatever it is given. */
  lemma EntriesStay(rules: Rules, g: Genesis, rcv: map<string, Block>, a: Store, more: map<string, Block>, a': Store)
    requires Sound(rules) && Replays(rules, g, rcv, a) && Replays(rules, g, more, a') && PartOf(rcv, more)
    ensures forall h :: h in a.blocks ==> SameEntry(a, a', h)
  {
    ReplaysMeans(rules, g, rcv, a);
    ReplaysMeans(rules, g, more, a');
    hide *;
    forall h | h in a.blocks
      ensures SameEntry(a, a', h)
    {
      SameAt(rules, g, rcv, more, a, a', h);
      EntryFrom(a, a', h);
    }
  }

  lemma EntryFrom(a: Store, b: Store, h: string)
    requires a.metas.Keys == a.blocks.Keys == a.snapshots.Keys && b.metas.Keys == b.blocks.Keys == b.snapshots.Keys
    requires h in a.blocks && h in b.blocks && a.blocks[h] == b.blocks[h] && a.snapshots[h] == b.snapshots[h]
    requires a.metas[h].(canonical := false) == b.metas[h].(canonical := false)
    ensures SameEntry(a, b, h)
  {
  }

  lemma AgreeThrough(a: Store, b: Store, v: Store)
    requires forall h :: h in a.blocks ==> SameEntry(a, v, h)
    requires forall h :: h in b.blocks ==> SameEntry(b, v, h)
    ensures Agree(a, b)
  {
  }

  /** A block that the node took from the other, and that both now store alike, is acceptable. */
  lemma TakenIsAcceptable(rules: Rules, g: Genesis, validate: Validator, rcv: map<string, Block>, a: Store,
                          other: map<string, Block>, b: Store, more: map<string, Block>, v: Store, h: string)
    requires Replays(rules, g, rcv, a) && Replays(rules, g, other, b) && Replays(rules, g, more, v)
    requires forall x :: x in b.blocks ==> SameEntry(b, v, x)
    requires PartOf(more, Joined(a, rcv, other, b)) && ApprovedBeyond(validate, rcv.Keys, Knowledge(more, v))
    requires h in other && h !in a.blocks
    ensures Acceptable(rules, validate, other, b, h)
  {
    ReplaysMeans(rules, g, rcv, a);
    ReplaysMeans(rules, g, other, b);
    ReplaysMeans(rules, g, more, v);
    hide *;
    EntrySnapshot(b, v, h);
    Taken(g, rcv, a, other, b, more, v, h);
    assert Derived(rules, more, v, h);
    assert Derived(rules, other, b, h);
    DerivedParent(rules, other, b, h);
    var parent := b.blocks[h].header.parentHash;
    EntrySnapshot(b, v, parent);
    FormAt(other, b, h);
    EntryBack(b, v, h);
    EntryBack(b, v, parent);
    DerivedMoves(rules, more, v, StoredForms(other, b), b, h);
    ApprovalMoves(validate, rcv.Keys, more, v, b, h);
    AcceptableFrom(rules, validate, other, b, h);
  }

  lemma EntryBack(a: Store, b: Store, h: string)
    requires SameEntry(a, b, h)
    ensures SameEntry(b, a, h) && SameEntry(a, b, h)
  {
  }

  lemma Taken(g: Genesis, rcv: map<string, Block>, a: Store, other: map<string, Block>, b: Store,
              more: map<string, Block>, v: Store, h: string)
    requires RootStored(g, rcv, a) && RootStored(g, other, b) && RootStored(g, more, v)
    requires PartOf(more, Joined(a, rcv, other, b)) && h in other && h !in a.blocks && h in b.blocks && h in v.blocks
    ensures h in more && h !in rcv && more[h] == b.blocks[h]
  {
  }

  lemma FormAt(rcv: map<string, Block>, db: Store, h: string)
    requires h in rcv && h in db.blocks
    ensures h in StoredForms(rcv, db) && StoredForms(rcv, db)[h] == db.blocks[h]
  {
  }

  lemma ApprovalMoves(validate: Validator, held: set<string>, more: map<string, Block>, v: Store, b: Store, h: string)
    requires ApprovedBeyond(validate, held, Knowledge(more, v)) && h in more && h !in held && h in b.blocks
    requires more[h] == b.blocks[h] && SameEntry(b, v, b.blocks[h].header.parentHash)
    ensures Approves(validate, b.snapshots[b.blocks[h].header.parentHash], b.blocks[h])
  {
    hide Approves;
  }

  lemma AcceptableFrom(rules: Rules, validate: Validator, rcv: map<string, Block>, db: Store, h: string)
    requires db.metas.Keys == db.blocks.Keys == db.snapshots.Keys && h in rcv && h in db.blocks
    requires h in StoredForms(rcv, db) && Derived(rules, StoredForms(rcv, db), db, h)
    requires db.blocks[h].header.parentHash in db.blocks
    requires Approves(validate, db.snapshots[db.blocks[h].header.parentHash], db.blocks[h])
    ensures Acceptable(rules, validate, rcv, db, h)
  {
    hide Derived, StoredForms, Approves;
  }

  /** One node's side of it: what it took in, whatever the outcome. */
  lemma FedAnyhow(rules: Rules, g: Genesis, validate: Validator, a: Store, rcv: map<string, Block>,
                  parked: map<string, Block>, other: map<string, Block>, b: Store, order: seq<Block>, d: Delivered,
                  v: Store)
    requires Sound(rules) && Replays(rules, g, rcv, a) && Settled(Knowledge(rcv, a))
    requires ByHash(parked) && Awaits(a, parked, StoredForms(other, b))
    requires forall x :: x in order ==> Deliverable(JustGenesis(g), StoredForms(other, b), x)
    requires d == DriveAll(rules, validate, Knowledge(rcv, a), parked, order)
    requires Replays(rules, g, d.known.received, v) && d.known == Knowledge(d.known.received, v)
    ensures forall h :: h in a.blocks ==> SameEntry(a, v, h)
    ensures PartOf(d.known.received, Joined(a, rcv, other, b))
    ensures ApprovedBeyond(validate, rcv.Keys, Knowledge(d.known.received, v))
  {
    ReplaysMeans(rules, g, rcv, a);
    hide *;
    var k, all := Knowledge(rcv, a), Joined(a, rcv, other, b);
    KnowledgeKeys(rcv, a);
    StartsSynced(g, a, rcv, other, b, parked);
    AllDeliverable(a, rcv, other, b, g, order);
    DeliveriesFrom(rules, validate, a.blocks.Keys, all, k, parked, order);
    DeliveriesContinue(rules, validate, k, parked, order);
    NothingNew(validate, k);
    DeliveriesApprove(rules, validate, rcv.Keys, k, parked, order);
    PartFrom(rcv, d.known.received);
    EntriesStay(rules, g, rcv, a, d.known.received, v);
  }

  lemma NothingNew(validate: Validator, k: Known)
    ensures ApprovedBeyond(validate, k.received.Keys, k)
  {
  }

  lemma PartFrom(rcv: map<string, Block>, more: map<string, Block>)
    requires forall h :: h in rcv ==> h in more && more[h] == rcv[h]
    ensures PartOf(rcv, more)
  {
  }

  // ---------------------------------------------------------------- the exchange

  /**
   Two nodes with the same genesis and rules, each with whatever mix of mining, importing and
   reorganising behind it and perhaps some of the other's blocks parked, are given each other's stored
   blocks, in any orders with any repeats. They end equal if and only if what both stored before they
   stored alike, and each block that only one of them stored prepares again as stored and the
   validator of the other approves it. When they end equal no delivery failed and nothing is parked.
   */
  method ExchangeBlocks(a: Blockchain, fa: ForkChoice, validateA: Validator, orderA: seq<Block>,
                        b: Blockchain, fb: ForkChoice, validateB: Validator, orderB: seq<Block>)
    returns (clean: bool)
    requires a.Valid() && fa.Valid() && b.Valid() && fb.Valid() && a != b && fa != fb
    requires a.rules == b.rules && a.genesis == b.genesis
    requires forall x :: x in orderA ==> Deliverable(JustGenesis(a.genesis), StoredForms(b.received, b.db), x)
    requires forall x :: x in orderB ==> Deliverable(JustGenesis(a.genesis), StoredForms(a.received, a.db), x)
    requires StoredForms(b.received, b.db).Keys <= Hashes(orderA)
    requires StoredForms(a.received, a.db).Keys <= Hashes(orderB)
    requires Awaits(a.db, fa.bufferedByHash, StoredForms(b.received, b.db))
    requires Awaits(b.db, fb.bufferedByHash, StoredForms(a.received, a.db))
    modifies a, fa, b, fb
    ensures a.Valid() && fa.Valid() && b.Valid() && fb.Valid()
    ensures a.GetView() == b.GetView()
       <==> && Agree(old(a.db), old(b.db))
            && NewAcceptable(a.rules, validateA, old(a.db), old(b.received), old(b.db))
            && NewAcceptable(a.rules, validateB, old(b.db), old(a.received), old(a.db))
    ensures a.GetView() == b.GetView() ==> clean && fa.bufferedByHash == map[] == fb.bufferedByHash
  {
    hide *;
    ghost var rules, g := a.rules, a.genesis;
    ghost var rcvA, dbA, parkedA := a.received, a.db, fa.bufferedByHash;
    ghost var rcvB, dbB, parkedB := b.received, b.db, fb.bufferedByHash;
    Setting(a, fa);
    Setting(b, fb);
    var cleanA := DeliverAll(a, validateA, fa, orderA);
    var cleanB := DeliverAll(b, validateB, fb, orderB);
    clean := cleanA && cleanB;
    Setting(a, fa);
    Setting(b, fb);
    ghost var dA := DriveAll(rules, validateA, Knowledge(rcvA, dbA), parkedA, orderA);
    ghost var dB := DriveAll(rules, validateB, Knowledge(rcvB, dbB), parkedB, orderB);
    if Agree(dbA, dbB) && NewAcceptable(rules, validateA, dbA, rcvB, dbB)
       && NewAcceptable(rules, validateB, dbB, rcvA, dbA) {
      AgreeBack(dbA, dbB);
      Fed(rules, g, validateA, dbA, rcvA, parkedA, rcvB, dbB, orderA, dA, a.db);
      Fed(rules, g, validateB, dbB, rcvB, parkedB, rcvA, dbA, orderB, dB, b.db);
      ReplaysMeans(rules, g, rcvA, dbA);
      ReplaysMeans(rules, g, rcvB, dbB);
      UnionCommutes(dbA, dbB);
      ViewsAgree(rules, g, a.received, a.GetView(), b.received, b.GetView());
    }
    if a.GetView() == b.GetView() {
      FedAnyhow(rules, g, validateA, dbA, rcvA, parkedA, rcvB, dbB, orderA, dA, a.db);
      FedAnyhow(rules, g, validateB, dbB, rcvB, parkedB, rcvA, dbA, orderB, dB, b.db);
      AgreeThrough(dbA, dbB, a.db);
      AllTaken(rules, g, validateA, rcvA, dbA, rcvB, dbB, a.received, a.db);
      AllTaken(rules, g, validateB, rcvB, dbB, rcvA, dbA, b.received, b.db);
    }
  }

  lemma AgreeBack(a: Store, b: Store)
    requires Agree(a, b)
    ensures Agree(b, a)
  {
    forall h | h in b.blocks && h in a.blocks
      ensures SameEntry(b, a, h)
    {
      assert SameEntry(a, b, h);
    }
  }

  lemma AllTaken(rules: Rules, g: Genesis, validate: Validator, rcv: map<string, Block>, a: Store,
                 other: map<string, Block>, b: Store, more: map<string, Block>, v: Store)
    requires Replays(rules, g, rcv, a) && Replays(rules, g, other, b) && Replays(rules, g, more, v)
    requires forall x :: x in b.blocks ==> SameEntry(b, v, x)
    requires PartOf(more, Joined(a, rcv, other, b)) && ApprovedBeyond(validate, rcv.Keys, Knowledge(more, v))
    ensures NewAcceptable(rules, validate, a, other, b)
  {
    hide *;
    forall h | h in other && h !in a.blocks
      ensures Acceptable(rules, validate, other, b, h)
    {
      TakenIsAcceptable(rules, g, validate, rcv, a, other, b, more, v, h);
    }
    NewFrom(rules, validate, a, other, b);
  }

  lemma NewFrom(rules: Rules, validate: Validator, a: Store, other: map<string, Block>, b: Store)
    requires forall h :: h in other && h !in a.blocks ==> Acceptable(rules, validate, other, b, h)
    ensures NewAcceptable(rules, validate, a, other, b)
  {
    hide Acceptable;
  }

  /** What the objects give. */
  lemma Setting(chain: Blockchain, fork: ForkChoice)
    requires chain.Valid() && fork.Valid()
    ensures Sound(chain.rules) && Replays(chain.rules, chain.genesis, chain.received, chain.db)
    ensures ChainValid(chain.rules, chain.genesis, chain.received, chain.GetView())
    ensures chain.GetView().db == chain.db && ByHash(fork.bufferedByHash)
    ensures KnownOf(chain) == Knowledge(chain.received, chain.db) && Settled(Knowledge(chain.received, chain.db))
    ensures Knowledge(chain.received, chain.db).received == chain.received
  {
    ChainSettles(chain);
    BufferIsByHash(fork);
    hide Sound, Replays, ChainValid, Settled;
  }
}
