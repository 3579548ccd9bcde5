/** Convergence: what nodes hold depends only on which blocks they were given. */
module Convergence {
  import opened Records
  import opened Chain
  import opened Blocks
  import opened Replay
  import opened Orphans
  import opened Worklist
  import opened Sync

  /**
   `all` is a parent-closed set of valid blocks: together they form the tree `ideal`, and the
   validator approves each but those of `held`.
   */
  ghost predicate ValidSet(rules: Rules, g: Genesis, validate: Validator, held: set<string>, all: map<string, Block>,
                           ideal: Store)
  {
    && Replays(rules, g, all, ideal)
    && forall h :: h in all && h !in held ==>
         && all[h].hash == h
         && all[h].header.parentHash in ideal.snapshots
         && Approves(validate, ideal.snapshots[all[h].header.parentHash], all[h])
  }

  ghost function JustGenesis(g: Genesis): set<string> {
    {g.block.hash}
  }

  lemma SetReplays(rules: Rules, g: Genesis, validate: Validator, held: set<string>, all: map<string, Block>,
                   ideal: Store)
    requires ValidSet(rules, g, validate, held, all, ideal)
    ensures Replays(rules, g, all, ideal)
  {
  }

  /** A delivered block has the hash of one that is held, or is one of the set. */
  ghost predicate Deliverable(held: set<string>, all: map<string, Block>, block: Block) {
    block.hash in held || (block.hash in all && all[block.hash] == block)
  }

  /**
   Every block of `delivered` is stored, parked or still queued, and a parked block's
   parent is not stored.
   */
  ghost predicate Accounted(root: string, all: map<string, Block>, delivered: set<string>,
                            stored: map<string, Block>, parked: map<string, Block>, queued: set<string>) {
    && PartOf(stored, all)
    && PartOf(parked, all)
    && (forall h :: h in delivered && h != root <==> (h in stored || h in parked || h in queued) && h != root)
    && (forall h :: h in parked ==>
          h !in stored && parked[h].header.parentHash != root && parked[h].header.parentHash !in stored)
  }

  ghost predicate Synced(root: string, all: map<string, Block>, delivered: set<string>,
                         stored: map<string, Block>, parked: map<string, Block>) {
    Accounted(root, all, delivered, stored, parked, {})
  }

  ghost function Hashes(queue: seq<Block>): set<string> {
    set b | b in queue :: b.hash
  }

  lemma ParentInIdeal(rules: Rules, g: Genesis, all: map<string, Block>, ideal: Store, h: string)
    requires Sound(rules) && Replays(rules, g, all, ideal) && h in all
    ensures h != "" && h != g.block.hash && all[h].header.number > 0
  {
    assert Derived(rules, all, ideal, h);
    ParentIsNamed(rules, all, ideal, h);
    assert IsChild(ideal.blocks, h);
  }

  /** A block that is stored already drops out of the queue. */
  lemma IgnoreStep(root: string, all: map<string, Block>, delivered: set<string>,
                   stored: map<string, Block>, parked: map<string, Block>, hash: string, rest: set<string>)
    requires Accounted(root, all, delivered, stored, parked, {hash} + rest)
    requires hash == root || hash in stored
    ensures Accounted(root, all, delivered, stored, parked, Hashes([]) + rest)
  {
  }

  /** A block whose parent is missing is parked, once. */
  lemma BufferStep(root: string, all: map<string, Block>, delivered: set<string>,
                   stored: map<string, Block>, parked: map<string, Block>, block: Block, rest: set<string>)
    requires Accounted(root, all, delivered, stored, parked, {block.hash} + rest)
    requires block.hash in all && all[block.hash] == block && block.hash !in stored
    requires block.header.parentHash != root && block.header.parentHash !in stored
    ensures Accounted(root, all, delivered, stored,
                      if block.hash in parked then parked else parked[block.hash := block], Hashes([]) + rest)
  {
  }

  /** The import step: the block moves to the store and its parked children move to the queue. */
  lemma ImportStep(root: string, all: map<string, Block>, delivered: set<string>,
                   stored: map<string, Block>, parked: map<string, Block>, block: Block, rest: set<string>,
                   kept: map<string, Block>, released: seq<Block>)
    requires Accounted(root, all, delivered, stored, parked, {block.hash} + rest)
    requires block.hash in all && all[block.hash] == block && block.hash !in stored && block.hash != root
    requires block.header.parentHash == root || block.header.parentHash in stored
    requires forall h :: h in kept <==> h in parked && parked[h].header.parentHash != block.hash
    requires forall h :: h in kept ==> kept[h] == parked[h]
    requires forall b :: b in released <==> b.hash in parked && b == parked[b.hash] && b.header.parentHash == block.hash
    requires forall h :: h in parked ==> parked[h].hash == h
    ensures Accounted(root, all, delivered, stored[block.hash := block], kept, Hashes(released) + rest)
    ensures forall b :: b in released ==> b.hash in all && all[b.hash] == b
  {
    forall h | h in parked && parked[h].header.parentHash == block.hash
      ensures h in Hashes(released)
    {
      assert parked[h] in released;
    }
  }

  lemma Enqueue(root: string, all: map<string, Block>, delivered: set<string>,
                stored: map<string, Block>, parked: map<string, Block>, block: Block)
    requires Synced(root, all, delivered, stored, parked)
    ensures Accounted(root, all, delivered + {block.hash}, stored, parked, Hashes([block]))
  {
  }

  lemma QueueDone(root: string, all: map<string, Block>, delivered: set<string>,
                  stored: map<string, Block>, parked: map<string, Block>)
    requires Accounted(root, all, delivered, stored, parked, Hashes([]))
    ensures Synced(root, all, delivered, stored, parked)
  {
  }

  lemma HashesSplit(a: seq<Block>, b: seq<Block>)
    ensures Hashes(a + b) == Hashes(a) + Hashes(b)
    ensures |a| == 1 ==> Hashes(a) == {a[0].hash}
    ensures |b| == 1 ==> Hashes(b) == {b[0].hash}
    ensures Hashes([]) == {}
  {
  }

  // ---------------------------------------------------------------- honest runs

  /** Whatever is known is as in the tree of the valid set. */
  ghost predicate Matches(root: string, k: Known, ideal: Store) {
    && Settled(k)
    && (forall h :: h in k.blocks <==> h == root || h in k.received)
    && (forall h :: h in k.blocks ==>
          && h in ideal.blocks && k.blocks[h] == ideal.blocks[h]
          && h in ideal.snapshots && k.snapshots[h] == ideal.snapshots[h])
  }

  /** A block of the set with its parent stored is stored as in the tree of the set. */
  lemma HonestAttempt(rules: Rules, g: Genesis, validate: Validator, held: set<string>, all: map<string, Block>,
                      ideal: Store, k: Known, b: Block)
    requires Sound(rules) && ValidSet(rules, g, validate, held, all, ideal) && Matches(g.block.hash, k, ideal)
    requires b.hash in all && all[b.hash] == b && b.hash !in held && b.header.parentHash in k.blocks
    ensures TryImport(rules, validate, k, b).Stored?
    ensures var p := TryImport(rules, validate, k, b).p;
      && b.hash in ideal.blocks && p.block == ideal.blocks[b.hash]
      && b.hash in ideal.snapshots && p.state == ideal.snapshots[b.hash]
  {
    assert Derived(rules, all, ideal, b.hash);
    ParentIsNamed(rules, all, ideal, b.hash);
    ParentInIdeal(rules, g, all, ideal, b.hash);
  }

  lemma GrowMatches(root: string, k: Known, ideal: Store, b: Block, p: Prepared)
    requires Matches(root, k, ideal) && b.hash != ""
    requires b.hash in ideal.blocks && p.block == ideal.blocks[b.hash]
    requires b.hash in ideal.snapshots && p.state == ideal.snapshots[b.hash]
    ensures Matches(root, Grow(k, b, p), ideal)
  {
  }

  lemma ChildrenMembers(parked: map<string, Block>, hash: string)
    requires ByHash(parked)
    ensures forall b :: b in Ordered(ChildrenOf(parked, hash)) <==>
      b.hash in parked && b == parked[b.hash] && b.header.parentHash == hash
  {
  }

  /** One turn on a block of the set keeps the account and does not fail. */
  lemma HonestTurn(rules: Rules, g: Genesis, validate: Validator, held: set<string>, all: map<string, Block>,
                   ideal: Store, goal: set<string>, k: Known, parked: map<string, Block>, b: Block, rest: set<string>)
    requires Sound(rules) && ValidSet(rules, g, validate, held, all, ideal) && Matches(g.block.hash, k, ideal)
    requires ByHash(parked) && held <= k.blocks.Keys && Deliverable(held, all, b)
    requires Accounted(g.block.hash, all, goal, k.received, parked, {b.hash} + rest)
    ensures var t := Turn(rules, validate, k, parked, b);
      && t.r.Ok? && Matches(g.block.hash, t.known, ideal) && held <= t.known.blocks.Keys
      && (forall x :: x in t.r.value ==> Deliverable(held, all, x))
      && Accounted(g.block.hash, all, goal, t.known.received, t.parked, Hashes(t.r.value) + rest)
  {
    var root := g.block.hash;
    hide TryImport, ValidSet, Ordered, ChildrenOf, Accounted, Settled, Replays;
    SetReplays(rules, g, validate, held, all, ideal);
    if b.hash in k.blocks {
      IgnoreStep(root, all, goal, k.received, parked, b.hash, rest);
    } else {
      ParentInIdeal(rules, g, all, ideal, b.hash);
      if b.header.parentHash !in k.blocks {
        BufferStep(root, all, goal, k.received, parked, b, rest);
      } else {
        HonestAttempt(rules, g, validate, held, all, ideal, k, b);
        GrowMatches(root, k, ideal, b, TryImport(rules, validate, k, b).p);
        var kept, released := Without(parked, b.hash), Ordered(ChildrenOf(parked, b.hash));
        ChildrenMembers(parked, b.hash);
        ImportStep(root, all, goal, k.received, parked, b, rest, kept, released);
      }
    }
  }

  /** A run over blocks of the set keeps the account and never fails. */
  lemma {:induction false} HonestRun(rules: Rules, g: Genesis, validate: Validator, held: set<string>,
                                     all: map<string, Block>, ideal: Store, goal: set<string>, k: Known,
                                     parked: map<string, Block>, queue: seq<Block>)
    requires Sound(rules) && ValidSet(rules, g, validate, held, all, ideal) && Matches(g.block.hash, k, ideal)
    requires ByHash(parked) && held <= k.blocks.Keys && forall b :: b in queue ==> Deliverable(held, all, b)
    requires Accounted(g.block.hash, all, goal, k.received, parked, Hashes(queue))
    ensures var o := Drive(rules, validate, k, parked, queue);
      && o.err == None && Matches(g.block.hash, o.known, ideal) && ByHash(o.parked) && held <= o.known.blocks.Keys
      && Synced(g.block.hash, all, goal, o.known.received, o.parked)
    decreases |queue| + |parked|, |queue|
  {
    hide *;
    if queue == [] {
      DriveEnds(rules, validate, k, parked);
      QueueDone(g.block.hash, all, goal, k.received, parked);
    } else {
      var rest := queue[1..];
      assert [queue[0]] + rest == queue;
      HashesSplit([queue[0]], rest);
      HonestTurn(rules, g, validate, held, all, ideal, goal, k, parked, queue[0], Hashes(rest));
      DriveStep(rules, validate, k, parked, queue);
      var t := Turn(rules, validate, k, parked, queue[0]);
      HashesSplit(t.r.value, rest);
      HonestRun(rules, g, validate, held, all, ideal, goal, t.known, t.parked, t.r.value + rest);
    }
  }

  /** Delivering a block of the set to a node in step never fails and keeps it in step. */
  lemma HonestDelivery(rules: Rules, g: Genesis, validate: Validator, held: set<string>, all: map<string, Block>,
                       ideal: Store, delivered: set<string>, k: Known, parked: map<string, Block>, b: Block)
    requires Sound(rules) && ValidSet(rules, g, validate, held, all, ideal) && Matches(g.block.hash, k, ideal)
    requires ByHash(parked) && held <= k.blocks.Keys && Deliverable(held, all, b)
    requires Synced(g.block.hash, all, delivered, k.received, parked)
    ensures var o := Drive(rules, validate, k, parked, [b]);
      && o.err == None && Matches(g.block.hash, o.known, ideal) && ByHash(o.parked) && held <= o.known.blocks.Keys
      && Synced(g.block.hash, all, delivered + {b.hash}, o.known.received, o.parked)
  {
    hide *;
    Enqueue(g.block.hash, all, delivered, k.received, parked, b);
    HonestRun(rules, g, validate, held, all, ideal, delivered + {b.hash}, k, parked, [b]);
  }

  /** A node that holds blocks of the set matches its tree. */
  lemma ChainMatches(rules: Rules, g: Genesis, all: map<string, Block>, ideal: Store,
                     rcv: map<string, Block>, db: Store)
    requires Sound(rules) && Replays(rules, g, all, ideal) && Replays(rules, g, rcv, db) && PartOf(rcv, all)
    ensures Matches(g.block.hash, Known(rcv, db.blocks, db.snapshots), ideal)
  {
    ReplaysMeans(rules, g, rcv, db);
    ReplaysMeans(rules, g, all, ideal);
    ReceivedHashes(rules, g, rcv, db);
    hide *;
    forall h | h in db.blocks
      ensures h in ideal.blocks && db.blocks[h] == ideal.blocks[h]
      ensures h in ideal.snapshots && db.snapshots[h] == ideal.snapshots[h]
    {
      SameAt(rules, g, rcv, all, db, ideal, h);
    }
    MatchesFrom(g.block.hash, Known(rcv, db.blocks, db.snapshots), ideal);
  }

  lemma ReceivedHashes(rules: Rules, g: Genesis, rcv: map<string, Block>, db: Store)
    requires Replays(rules, g, rcv, db)
    ensures "" !in db.blocks && forall h :: h in db.blocks <==> h == g.block.hash || h in rcv
  {
  }

  lemma MatchesFrom(root: string, k: Known, ideal: Store)
    requires k.blocks.Keys == k.snapshots.Keys && "" !in k.blocks
    requires forall h :: h in k.blocks <==> h == root || h in k.received
    requires forall h :: h in k.blocks ==> h in ideal.blocks && k.blocks[h] == ideal.blocks[h]
    requires forall h :: h in k.blocks ==> h in ideal.snapshots && k.snapshots[h] == ideal.snapshots[h]
    ensures Matches(root, k, ideal)
  {
  }

  // ---------------------------------------------------------------- convergence

  /** Block `h` and all its ancestors up to the root have been delivered. */
  ghost predicate Reached(ideal: Store, root: string, delivered: set<string>, h: string)
    requires Tree(ideal.blocks, root) && h in ideal.blocks
    decreases ideal.blocks[h].header.number
  {
    || h == root
    || (h in delivered
        && (assert IsChild(ideal.blocks, h); Reached(ideal, root, delivered, ideal.blocks[h].header.parentHash)))
  }

  /** At rest, exactly the blocks with no missing ancestor are stored. */
  lemma {:induction false} StoredIsReached(rules: Rules, g: Genesis, all: map<string, Block>,
                                           ideal: Store, delivered: set<string>, rcv: map<string, Block>,
                                           parked: map<string, Block>, db: Store, h: string)
    requires Sound(rules) && Replays(rules, g, all, ideal) && Replays(rules, g, rcv, db)
    requires Synced(g.block.hash, all, delivered, rcv, parked) && h in ideal.blocks
    ensures h in db.blocks <==> Reached(ideal, g.block.hash, delivered, h)
    decreases ideal.blocks[h].header.number
  {
    if h != g.block.hash {
      var parent := ideal.blocks[h].header.parentHash;
      assert IsChild(ideal.blocks, h);
      assert Derived(rules, all, ideal, h);
      ParentIsNamed(rules, all, ideal, h);
      StoredIsReached(rules, g, all, ideal, delivered, rcv, parked, db, parent);
      if h in db.blocks {
        assert Derived(rules, rcv, db, h);
        assert IsChild(db.blocks, h);
        ParentIsNamed(rules, rcv, db, h);
      }
    }
  }

  /**
   At rest the node is a function of the set of blocks delivered to it: two nodes that have
   been delivered the same blocks, in whatever orders and however often, hold the same tip,
   state, height index, metadata and snapshots, and park the same orphans.
   */
  lemma DeliveredDeterminesNode(rules: Rules, g: Genesis, all: map<string, Block>, ideal: Store,
                                delivered: set<string>,
                                rcv: map<string, Block>, parked: map<string, Block>, v: View,
                                rcv': map<string, Block>, parked': map<string, Block>, w: View)
    requires Sound(rules) && Replays(rules, g, all, ideal)
    requires ChainValid(rules, g, rcv, v) && Synced(g.block.hash, all, delivered, rcv, parked)
    requires ChainValid(rules, g, rcv', w) && Synced(g.block.hash, all, delivered, rcv', parked')
    ensures v == w && parked == parked'
  {
    hide *;
    ReceivedAgree(rules, g, all, ideal, delivered, rcv, parked, v, rcv', parked', w);
    ParkedIsRest(g.block.hash, all, delivered, rcv, parked, parked');
    ReceivedDeterminesChain(rules, g, rcv, v, w);
  }

  lemma ReceivedAgree(rules: Rules, g: Genesis, all: map<string, Block>, ideal: Store,
                      delivered: set<string>,
                      rcv: map<string, Block>, parked: map<string, Block>, v: View,
                      rcv': map<string, Block>, parked': map<string, Block>, w: View)
    requires Sound(rules) && Replays(rules, g, all, ideal)
    requires ChainValid(rules, g, rcv, v) && Synced(g.block.hash, all, delivered, rcv, parked)
    requires ChainValid(rules, g, rcv', w) && Synced(g.block.hash, all, delivered, rcv', parked')
    ensures rcv == rcv' && g.block.hash !in all
  {
    hide *;
    RootNotReceived(rules, g, all, ideal);
    ReceivedWithin(rules, g, all, ideal, delivered, rcv, parked, v, rcv', parked', w);
    ReceivedWithin(rules, g, all, ideal, delivered, rcv', parked', w, rcv, parked, v);
  }

  lemma RootNotReceived(rules: Rules, g: Genesis, all: map<string, Block>, ideal: Store)
    requires Replays(rules, g, all, ideal)
    ensures g.block.hash !in all
  {
  }

  lemma ReceivedWithin(rules: Rules, g: Genesis, all: map<string, Block>, ideal: Store,
                       delivered: set<string>,
                       rcv: map<string, Block>, parked: map<string, Block>, v: View,
                       rcv': map<string, Block>, parked': map<string, Block>, w: View)
    requires Sound(rules) && Replays(rules, g, all, ideal)
    requires ChainValid(rules, g, rcv, v) && Synced(g.block.hash, all, delivered, rcv, parked)
    requires ChainValid(rules, g, rcv', w) && Synced(g.block.hash, all, delivered, rcv', parked')
    ensures forall h :: h in rcv ==> h in rcv' && rcv[h] == rcv'[h]
  {
    forall h | h in rcv
      ensures h in rcv' && rcv[h] == rcv'[h]
    {
      StoredIsReached(rules, g, all, ideal, delivered, rcv, parked, v.db, h);
      StoredIsReached(rules, g, all, ideal, delivered, rcv', parked', w.db, h);
    }
  }

  lemma ParkedIsRest(root: string, all: map<string, Block>, delivered: set<string>,
                     rcv: map<string, Block>, parked: map<string, Block>, parked': map<string, Block>)
    requires Synced(root, all, delivered, rcv, parked) && Synced(root, all, delivered, rcv, parked')
    requires root !in all
    ensures parked == parked'
  {
    forall h
      ensures h in parked <==> h in parked'
    {
    }
  }

  lemma {:induction false} AllReached(rules: Rules, g: Genesis, all: map<string, Block>, ideal: Store,
                                      delivered: set<string>, h: string)
    requires Replays(rules, g, all, ideal) && h in ideal.blocks && all.Keys <= delivered
    ensures Reached(ideal, g.block.hash, delivered, h)
    decreases ideal.blocks[h].header.number
  {
    if h != g.block.hash {
      assert IsChild(ideal.blocks, h);
      assert h in all.Keys;
      AllReached(rules, g, all, ideal, delivered, ideal.blocks[h].header.parentHash);
    }
  }

  /** Once the whole parent-closed set has been delivered, every block is stored and no orphan is left. */
  lemma EverythingStored(rules: Rules, g: Genesis, all: map<string, Block>, ideal: Store,
                         delivered: set<string>,
                         rcv: map<string, Block>, parked: map<string, Block>, db: Store)
    requires Sound(rules) && Replays(rules, g, all, ideal) && Replays(rules, g, rcv, db)
    requires Synced(g.block.hash, all, delivered, rcv, parked) && all.Keys <= delivered
    ensures rcv == all && parked == map[]
  {
    hide *;
    SetSetting(rules, g, all, ideal, rcv, db);
    forall h | h in all
      ensures h in rcv
    {
      AllReached(rules, g, all, ideal, delivered, h);
      StoredIsReached(rules, g, all, ideal, delivered, rcv, parked, db, h);
    }
    NothingElse(g.block.hash, all, delivered, rcv, parked);
  }

  lemma SetSetting(rules: Rules, g: Genesis, all: map<string, Block>, ideal: Store,
                   rcv: map<string, Block>, db: Store)
    requires Replays(rules, g, all, ideal) && Replays(rules, g, rcv, db)
    ensures Replays(rules, g, all, ideal) && Tree(ideal.blocks, g.block.hash)
    ensures forall h :: h in all ==> h in ideal.blocks && h != g.block.hash
    ensures forall h :: h in db.blocks && h != g.block.hash ==> h in rcv
  {
    hide Tree, Derived, Approves;
  }

  lemma NothingElse(root: string, all: map<string, Block>, delivered: set<string>, rcv: map<string, Block>,
                    parked: map<string, Block>)
    requires Synced(root, all, delivered, rcv, parked) && forall h :: h in all ==> h in rcv
    ensures rcv == all && parked == map[]
  {
    assert forall h :: h !in parked;
  }

  // ---------------------------------------------------------------- two nodes

  lemma {:induction false} HonestDeliveries(rules: Rules, g: Genesis, validate: Validator, held: set<string>,
                                            all: map<string, Block>, ideal: Store, before: set<string>, k: Known,
                                            parked: map<string, Block>, blocks: seq<Block>)
    requires Sound(rules) && ValidSet(rules, g, validate, held, all, ideal) && Matches(g.block.hash, k, ideal)
    requires ByHash(parked) && held <= k.blocks.Keys && forall b :: b in blocks ==> Deliverable(held, all, b)
    requires Synced(g.block.hash, all, before, k.received, parked)
    ensures var d := DriveAll(rules, validate, k, parked, blocks);
      && d.clean && Matches(g.block.hash, d.known, ideal) && held <= d.known.blocks.Keys
      && Synced(g.block.hash, all, before + Hashes(blocks), d.known.received, d.parked)
    decreases |blocks|
  {
    hide *;
    if blocks == [] {
      NoDeliveries(rules, validate, k, parked);
      HashesSplit([], []);
      assert before + Hashes(blocks) == before;
    } else {
      var n := |blocks| - 1;
      var first := blocks[..n];
      HonestDeliveries(rules, g, validate, held, all, ideal, before, k, parked, first);
      var d := DriveAll(rules, validate, k, parked, first);
      DriveAllStep(rules, validate, k, parked, blocks, n);
      assert blocks[..n + 1] == blocks == first + [blocks[n]];
      HashesSplit(first, [blocks[n]]);
      HonestDelivery(rules, g, validate, held, all, ideal, before + Hashes(first), d.known, d.parked, blocks[n]);
      assert before + Hashes(first) + {blocks[n].hash} == before + Hashes(blocks);
    }
  }

  lemma FreshHolds(g: Genesis, k: Known)
    requires g.block.hash in k.blocks
    ensures JustGenesis(g) <= k.blocks.Keys
  {
  }

  lemma NothingDelivered(root: string, all: map<string, Block>)
    ensures Synced(root, all, {}, map[], map[]) && PartOf(map[], all)
  {
  }

  /** A fresh node that is delivered blocks of a valid set, in any order with any repeats. */
  method FreshNode(rules: Rules, genesis: Genesis, validate: Validator, order: seq<Block>)
    returns (chain: Blockchain, fork: ForkChoice, clean: bool)
    requires Sound(rules) && GenesisFits(rules, genesis)
    ensures fresh(chain) && fresh(fork) && chain.Valid() && fork.Valid()
    ensures chain.rules == rules && chain.genesis == genesis
    ensures forall all, ideal ::
      && ValidSet(rules, genesis, validate, JustGenesis(genesis), all, ideal)
      && (forall b :: b in order ==> Deliverable(JustGenesis(genesis), all, b)) ==>
        clean && Synced(genesis.block.hash, all, Hashes(order), chain.received, fork.bufferedByHash)
    ensures exists k ::
      && Settled(k) && k.received == map[] && k.blocks.Keys == {genesis.block.hash} && ByHash(map[])
      && Delivered(KnownOf(chain), fork.bufferedByHash, clean) == DriveAll(rules, validate, k, map[], order)
  {
    hide *;
    chain := new Blockchain(rules, genesis);
    fork := new ForkChoice();
    ChainSettles(chain);
    FreshKnows(chain);
    ghost var k := KnownOf(chain);
    ghost var db := chain.db;
    clean := DeliverAll(chain, validate, fork, order);
    ChainKnows(chain);
    forall all, ideal |
      && ValidSet(rules, genesis, validate, JustGenesis(genesis), all, ideal)
      && (forall b :: b in order ==> Deliverable(JustGenesis(genesis), all, b))
      ensures clean && Synced(genesis.block.hash, all, Hashes(order), chain.received, fork.bufferedByHash)
    {
      NothingDelivered(genesis.block.hash, all);
      FreshHolds(genesis, k);
      SetReplays(rules, genesis, validate, JustGenesis(genesis), all, ideal);
      ChainMatches(rules, genesis, all, ideal, map[], db);
      HonestDeliveries(rules, genesis, validate, JustGenesis(genesis), all, ideal, {}, k, map[], order);
      assert {} + Hashes(order) == Hashes(order);
    }
  }

  lemma FreshKnows(chain: Blockchain)
    requires chain.Valid() && chain.received == map[]
    ensures KnownOf(chain) == Known(map[], chain.db.blocks, chain.db.snapshots)
    ensures chain.db.blocks.Keys == {chain.genesis.block.hash}
  {
    ChainSettles(chain);
    ReceivedHashes(chain.rules, chain.genesis, chain.received, chain.db);
    hide Replays, ChainValid, Sound;
  }

  /**
   Two fresh nodes with the same genesis, fed the same valid blocks in any two orders with any
   repeats, end equal and no delivery fails; if the blocks are the whole set, both store it all
   and park nothing.
   */
  method Converge(rules: Rules, genesis: Genesis, validate: Validator, order: seq<Block>, order': seq<Block>,
                  ghost all: map<string, Block>, ghost ideal: Store)
    returns (a: Blockchain, fa: ForkChoice, b: Blockchain, fb: ForkChoice, clean: bool)
    requires Sound(rules) && GenesisFits(rules, genesis)
    requires ValidSet(rules, genesis, validate, JustGenesis(genesis), all, ideal)
    requires forall x :: x in order || x in order' ==> Deliverable(JustGenesis(genesis), all, x)
    requires Hashes(order) == Hashes(order')
    ensures a.Valid() && b.Valid() && fa.Valid() && fb.Valid() && clean
    ensures a.GetView() == b.GetView() && fa.bufferedByHash == fb.bufferedByHash
    ensures all.Keys <= Hashes(order) ==>
      a.received == all == b.received && fa.bufferedByHash == map[] == fb.bufferedByHash
  {
    hide *;
    var cleanA, cleanB;
    a, fa, cleanA := FreshNode(rules, genesis, validate, order);
    b, fb, cleanB := FreshNode(rules, genesis, validate, order');
    clean := cleanA && cleanB;
    ChainSettles(a);
    ChainSettles(b);
    SetReplays(rules, genesis, validate, JustGenesis(genesis), all, ideal);
    DeliveredDeterminesNode(rules, genesis, all, ideal, Hashes(order),
                            a.received, fa.bufferedByHash, a.GetView(), b.received, fb.bufferedByHash, b.GetView());
    if all.Keys <= Hashes(order) {
      EverythingStored(rules, genesis, all, ideal, Hashes(order), a.received, fa.bufferedByHash, a.db);
      EverythingStored(rules, genesis, all, ideal, Hashes(order), b.received, fb.bufferedByHash, b.db);
    }
  }
}
