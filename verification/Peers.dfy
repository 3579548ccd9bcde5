/** Miners and their peers: catching up with a miner, mining among orphans, and lost siblings. */
module Peers {
  import opened Records
  import opened Chain
  import opened Blocks
  import opened Replay
  import opened Orphans
  import opened Worklist
  import opened Sync
  import opened Convergence
  import Text

  // ---------------------------------------------------------------- catching up with a node

  /** A node's blocks as it stores them, which is how it serves them. */
  ghost function StoredForms(rcv: map<string, Block>, db: Store): map<string, Block> {
    map h | h in rcv && h in db.blocks :: db.blocks[h]
  }

  /** Each stored block prepares, as stored, to what is stored for it. */
  ghost predicate AllRepeat(rules: Rules, rcv: map<string, Block>, db: Store) {
    && db.metas.Keys == db.blocks.Keys == db.snapshots.Keys
    && forall h :: h in rcv ==> h in db.blocks && Derived(rules, StoredForms(rcv, db), db, h)
  }

  lemma FormsReplay(rules: Rules, g: Genesis, rcv: map<string, Block>, db: Store)
    requires Replays(rules, g, rcv, db) && AllRepeat(rules, rcv, db)
    ensures Replays(rules, g, StoredForms(rcv, db), db)
  {
    var forms := StoredForms(rcv, db);
    ReplaysMeans(rules, g, rcv, db);
    FormsRoot(g, rcv, db);
    hide Replays, Linked, RootStored;
    forall h {:trigger Derived(rules, forms, db, h)} | h in forms
      ensures h in db.blocks && Derived(rules, forms, db, h)
    {
    }
    ReplaysFrom(rules, g, forms, db);
  }

  lemma FormsRoot(g: Genesis, rcv: map<string, Block>, db: Store)
    requires RootStored(g, rcv, db)
    ensures RootStored(g, StoredForms(rcv, db), db)
    ensures StoredForms(rcv, db).Keys == rcv.Keys
  {
  }

  /** The stored forms that all repeat and are all approved are a valid set. */
  lemma FormsAreValidSet(rules: Rules, g: Genesis, validate: Validator, rcv: map<string, Block>, db: Store)
    requires Sound(rules) && Replays(rules, g, rcv, db) && AllRepeat(rules, rcv, db)
    requires ApprovedBeyond(validate, {}, Known(StoredForms(rcv, db), db.blocks, db.snapshots))
    ensures ValidSet(rules, g, validate, JustGenesis(g), StoredForms(rcv, db), db)
  {
    FormsReplay(rules, g, rcv, db);
    HashesOfBlocks(rules, g, rcv, db);
    hide Replays, AllRepeat, Derived;
  }

  lemma HashesOfBlocks(rules: Rules, g: Genesis, rcv: map<string, Block>, db: Store)
    requires Replays(rules, g, rcv, db)
    ensures forall h :: h in db.blocks ==> db.blocks[h].hash == h
  {
  }

  /** A node that was only ever given blocks of a set holds and parks blocks of the set. */
  lemma DeliveryFrom(rules: Rules, validate: Validator, held: set<string>, all: map<string, Block>, k: Known,
                     parked: map<string, Block>, b: Block)
    requires Settled(k) && held <= k.blocks.Keys && ByHash(parked)
    requires PartOf(k.received, all) && PartOf(parked, all) && Deliverable(held, all, b)
    ensures var o := Drive(rules, validate, k, parked, [b]);
      && Settled(o.known) && held <= o.known.blocks.Keys && ByHash(o.parked)
      && PartOf(o.known.received, all) && PartOf(o.parked, all)
  {
    DeliveryKeeps(rules, validate, k, parked, b);
    var o := Drive(rules, validate, k, parked, [b]);
    if b.hash in k.blocks {
      StoredIsIgnored(rules, validate, k, parked, b);
    } else {
      HeldStays(held, k, o);
      hide *;
      ParkedFrom(all, parked, b, o.parked);
      if b.header.parentHash in k.blocks {
        OfferedOnly(rules, validate, k, parked, b, o);
        ReceivedFrom(all, k, parked, b, o);
      }
    }
  }

  lemma HeldStays(held: set<string>, k: Known, o: Outcome)
    requires Continues(k, o.known) && held <= k.blocks.Keys
    ensures held <= o.known.blocks.Keys
  {
  }

  lemma OfferedOnly(rules: Rules, validate: Validator, k: Known, parked: map<string, Block>, b: Block, o: Outcome)
    requires RunKeeps(rules, validate, k, parked, [b], o)
    ensures OnlyOffered(k, parked, [b], o)
  {
    hide OnlyOffered;
  }

  lemma ParkedFrom(all: map<string, Block>, parked: map<string, Block>, b: Block, parked': map<string, Block>)
    requires PartOf(parked, all) && b.hash in all && all[b.hash] == b
    requires forall h :: h in parked' ==> (h in parked && parked'[h] == parked[h]) || (h == b.hash && parked'[h] == b)
    ensures PartOf(parked', all)
  {
  }

  lemma ReceivedFrom(all: map<string, Block>, k: Known, parked: map<string, Block>, b: Block, o: Outcome)
    requires OnlyOffered(k, parked, [b], o)
    requires PartOf(k.received, all) && PartOf(parked, all) && b.hash in all && all[b.hash] == b
    ensures PartOf(o.known.received, all)
  {
  }

  lemma {:induction false} DeliveriesFrom(rules: Rules, validate: Validator, held: set<string>,
                                          all: map<string, Block>, k: Known, parked: map<string, Block>,
                                          blocks: seq<Block>)
    requires Settled(k) && held <= k.blocks.Keys && ByHash(parked)
    requires PartOf(k.received, all) && PartOf(parked, all) && forall b :: b in blocks ==> Deliverable(held, all, b)
    ensures var d := DriveAll(rules, validate, k, parked, blocks);
      && Settled(d.known) && held <= d.known.blocks.Keys
      && PartOf(d.known.received, all) && PartOf(d.parked, all)
    decreases |blocks|
  {
    hide *;
    if blocks == [] {
      NoDeliveries(rules, validate, k, parked);
    } else {
      var n := |blocks| - 1;
      DeliveriesFrom(rules, validate, held, all, k, parked, blocks[..n]);
      var d := DriveAll(rules, validate, k, parked, blocks[..n]);
      DriveAllStep(rules, validate, k, parked, blocks, n);
      assert blocks[..n + 1] == blocks;
      DeliveryFrom(rules, validate, held, all, d.known, d.parked, blocks[n]);
    }
  }

  /** A fresh node's first knowledge is approved and holds nothing. */
  lemma FreshIsApproved(validate: Validator, k: Known, all: map<string, Block>)
    requires k.received == map[]
    ensures ApprovedBeyond(validate, {}, k) && PartOf(k.received, all) && PartOf(map[], all)
  {
  }

  /** Two nodes with the same view, one of which holds only stored forms of the other: all repeat. */
  lemma EqualMeansRepeat(rules: Rules, g: Genesis, validate: Validator, rcv: map<string, Block>, v: View,
                         own: map<string, Block>)
    requires ChainValid(rules, g, rcv, v) && ChainValid(rules, g, own, v)
    requires PartOf(own, StoredForms(rcv, v.db))
    requires ApprovedBeyond(validate, {}, Known(own, v.db.blocks, v.db.snapshots))
    ensures AllRepeat(rules, rcv, v.db)
    ensures ApprovedBeyond(validate, {}, Known(StoredForms(rcv, v.db), v.db.blocks, v.db.snapshots))
  {
    hide *;
    ChainReplays(rules, g, own, v);
    ReplaysMeans(rules, g, own, v.db);
    SameHashes(rules, g, rcv, own, v);
    SameMap(own, StoredForms(rcv, v.db));
    RepeatFrom(rules, rcv, v.db);
  }

  lemma ChainReplays(rules: Rules, g: Genesis, rcv: map<string, Block>, v: View)
    requires ChainValid(rules, g, rcv, v)
    ensures Replays(rules, g, rcv, v.db)
  {
    hide Replays;
  }

  lemma SameMap(part: map<string, Block>, all: map<string, Block>)
    requires PartOf(part, all) && part.Keys == all.Keys
    ensures part == all
  {
  }

  lemma RepeatFrom(rules: Rules, rcv: map<string, Block>, db: Store)
    requires db.metas.Keys == db.blocks.Keys == db.snapshots.Keys && StoredForms(rcv, db).Keys == rcv.Keys
    requires forall h :: h in StoredForms(rcv, db) ==> h in db.blocks
    requires var forms := StoredForms(rcv, db);
      forall h {:trigger Derived(rules, forms, db, h)} :: h in forms ==> Derived(rules, forms, db, h)
    ensures AllRepeat(rules, rcv, db)
  {
    hide Derived, StoredForms;
  }

  lemma SameHashes(rules: Rules, g: Genesis, rcv: map<string, Block>, own: map<string, Block>, v: View)
    requires ChainValid(rules, g, rcv, v) && ChainValid(rules, g, own, v)
    ensures own.Keys == rcv.Keys == StoredForms(rcv, v.db).Keys
  {
    assert forall h :: h in own <==> h in rcv;
  }

  lemma FormsChain(rules: Rules, g: Genesis, rcv: map<string, Block>, v: View)
    requires ChainValid(rules, g, rcv, v) && Replays(rules, g, StoredForms(rcv, v.db), v.db)
    ensures ChainValid(rules, g, StoredForms(rcv, v.db), v)
  {
  }

  /**
   A fresh node is given the blocks that another node stores, in any order with any repeats. It
   ends equal to the other, whatever mix of mining, importing and reorganising that has behind
   it, if and only if each stored block prepares again as stored and the validator approves it.
   */
  method CatchUp(miner: Blockchain, validate: Validator, order: seq<Block>)
    returns (peer: Blockchain, fork: ForkChoice)
    requires miner.Valid()
    requires forall b :: b in order ==>
      Deliverable(JustGenesis(miner.genesis), StoredForms(miner.received, miner.db), b)
    requires StoredForms(miner.received, miner.db).Keys <= Hashes(order)
    ensures peer.Valid() && fork.Valid()
    ensures peer.GetView() == miner.GetView()
       <==> && AllRepeat(miner.rules, miner.received, miner.db)
            && ApprovedBeyond(validate, {},
                 Known(StoredForms(miner.received, miner.db), miner.db.blocks, miner.db.snapshots))
    ensures peer.GetView() == miner.GetView() ==> fork.bufferedByHash == map[]
  {
    hide *;
    ghost var rules, g, rcv, db := miner.rules, miner.genesis, miner.received, miner.db;
    ghost var forms := StoredForms(rcv, db);
    ChainSettles(miner);
    var clean;
    peer, fork, clean := FreshNode(miner.rules, miner.genesis, validate, order);
    ChainSettles(peer);
    ViewParts(peer);
    ViewParts(miner);
    if AllRepeat(rules, rcv, db) && ApprovedBeyond(validate, {}, Known(forms, db.blocks, db.snapshots)) {
      FormsAreValidSet(rules, g, validate, rcv, db);
      FormsReplay(rules, g, rcv, db);
      EverythingStored(rules, g, forms, db, Hashes(order), peer.received, fork.bufferedByHash, peer.db);
      FormsChain(rules, g, rcv, miner.GetView());
      ReceivedDeterminesChain(rules, g, forms, peer.GetView(), miner.GetView());
    }
    if peer.GetView() == miner.GetView() {
      ghost var k :|
        && Settled(k) && k.received == map[] && k.blocks.Keys == {g.block.hash} && ByHash(map[])
        && Delivered(KnownOf(peer), fork.bufferedByHash, clean) == DriveAll(rules, validate, k, map[], order);
      FreshIsApproved(validate, k, forms);
      FreshHolds(g, k);
      DeliveriesFrom(rules, validate, JustGenesis(g), forms, k, map[], order);
      DeliveriesApprove(rules, validate, {}, k, map[], order);
      ChainKnows(peer);
      EqualMeansRepeat(rules, g, validate, rcv, miner.GetView(), peer.received);
    }
  }

  lemma ViewParts(chain: Blockchain)
    requires chain.Valid()
    ensures chain.GetView().db == chain.db
  {
    hide ChainValid;
  }

  // ---------------------------------------------------------------- mining among orphans

  /**
   A miner in step with its peers stays in step by mining, if and only if no orphan of the new
   block is parked: mining does not release orphans.
   */
  lemma MiningStaysSynced(root: string, all: map<string, Block>, delivered: set<string>,
                          stored: map<string, Block>, parked: map<string, Block>, block: Block)
    requires Synced(root, all, delivered, stored, parked)
    requires block.hash in all && all[block.hash] == block && block.hash != root && block.hash !in stored
    requires block.header.parentHash == root || block.header.parentHash in stored
    ensures Synced(root, all, delivered + {block.hash}, stored[block.hash := block], parked)
       <==> forall h :: h in parked ==> parked[h].header.parentHash != block.hash
  {
    var more := stored[block.hash := block];
    assert block.hash !in parked;
    if Synced(root, all, delivered + {block.hash}, more, parked) {
      forall h | h in parked
        ensures parked[h].header.parentHash != block.hash
      {
        assert parked[h].header.parentHash !in more;
      }
    }
  }

  /** What mining on a valid chain would prepare is new, and its parent is the tip. */
  lemma MinedFacts(chain: Blockchain, template: Block)
    requires chain.Valid() && template.header.parentHash == chain.latest.hash
    ensures chain.latest.hash == chain.genesis.block.hash || chain.latest.hash in chain.received
    ensures chain.rules.prepare(chain.latest, chain.state, template).Ok? ==>
      var p := chain.rules.prepare(chain.latest, chain.state, template).value;
      && p.block.hash != "" && p.block.hash !in chain.db.blocks
      && p.block.header.parentHash == chain.latest.hash && p.block.header.number > 0
  {
    ChainSettles(chain);
    ReceivedHashes(chain.rules, chain.genesis, chain.received, chain.db);
    if chain.rules.prepare(chain.latest, chain.state, template).Ok? {
      var p := chain.rules.prepare(chain.latest, chain.state, template).value;
      PrepareFits(chain.rules, chain.latest, chain.state, template);
      var meta := Meta(p.block.hash, p.block.header.parentHash, p.block.header.number, p.work,
                       chain.latestMeta.cumulativeWork + p.work, true);
      MinedIsNewAndPreferred(chain.rules, chain.genesis, chain.received, chain.GetView(), template, p, meta);
    }
    hide ChainValid, Replays, Sound;
  }

  lemma PrepareFits(rules: Rules, parent: Block, state: Snapshot, block: Block)
    requires Sound(rules) && rules.prepare(parent, state, block).Ok?
    ensures PreparedFits(rules.hashOf, parent, block, rules.prepare(parent, state, block).value)
  {
  }

  /** Mining by a node in step with its peers, on the objects. */
  method MineInStep(chain: Blockchain, fork: ForkChoice, miner: string, body: Body, timestamp: int,
                    ghost all: map<string, Block>, ghost delivered: set<string>)
    returns (r: Result<Block>)
    requires chain.Valid() && fork.Valid()
    requires Synced(chain.genesis.block.hash, all, delivered, chain.received, fork.bufferedByHash)
    requires var template := MinedTemplate(chain.latest, timestamp, miner, body);
      match chain.rules.prepare(chain.latest, chain.state, template)
      case Err(_) => true
      case Ok(p) =>
        Repeats(chain.rules, chain.latest, chain.state, p) && p.block.hash in all && all[p.block.hash] == p.block
    modifies chain
    ensures chain.Valid() && fork.Valid()
    ensures r.Ok? ==>
      (Synced(chain.genesis.block.hash, all, delivered + {r.value.hash}, chain.received, fork.bufferedByHash)
       <==> forall h :: h in fork.bufferedByHash ==> fork.bufferedByHash[h].header.parentHash != r.value.hash)
  {
    ghost var template := MinedTemplate(chain.latest, timestamp, miner, body);
    MinedFacts(chain, template);
    NotReceived(chain);
    hide Repeats, Synced;
    ghost var root, stored := chain.genesis.block.hash, chain.received;
    if chain.rules.prepare(chain.latest, chain.state, template).Ok? {
      ghost var p := chain.rules.prepare(chain.latest, chain.state, template).value;
      MiningStaysSynced(root, all, delivered, stored, fork.bufferedByHash, p.block);
    }
    r := chain.MineBlock(miner, body, timestamp);
  }

  lemma NotReceived(chain: Blockchain)
    requires chain.Valid()
    ensures chain.genesis.block.hash in chain.db.blocks && forall h :: h in chain.received ==> h in chain.db.blocks
  {
  }

  /**
   A child of the block that mining will produce arrives first. It is parked; after mining its
   parent is stored and it is still parked, not stored.
   */
  method OrphanOutlivesMining(chain: Blockchain, validate: Validator, fork: ForkChoice, child: Block,
                              miner: string, body: Body, timestamp: int)
    returns (mined: Block)
    requires chain.Valid() && fork.Valid()
    requires child.hash !in chain.db.blocks && child.hash !in fork.bufferedByHash && child.header.number > 0
    requires var template := MinedTemplate(chain.latest, timestamp, miner, body);
      var r := chain.rules.prepare(chain.latest, chain.state, template);
      r.Ok? && child.header.parentHash == r.value.block.hash != child.hash
    modifies chain, fork
    ensures chain.Valid() && fork.Valid()
    ensures child.header.parentHash == mined.hash && mined.hash in chain.db.blocks
    ensures child.hash !in chain.db.blocks
    ensures child.hash in fork.bufferedByHash && fork.bufferedByHash[child.hash] == child
  {
    hide *;
    TemplateParent(chain.latest, timestamp, miner, body);
    MinedFacts(chain, MinedTemplate(chain.latest, timestamp, miner, body));
    ChainKnows(chain);
    ChainSettles(chain);
    ViewIs(chain);
    BufferIsByHash(fork);
    ghost var k := KnownOf(chain);
    ChildIsOrphan(k, child);
    ParkedAt(fork.bufferedByHash, child);
    OrphanIsParked(chain.rules, validate, KnownOf(chain), fork.bufferedByHash, child);
    ghost var rcv, view := chain.received, chain.GetView();
    var err := ImportRemoteBlock(chain, validate, fork, child);
    ChainKnows(chain);
    ChainSettles(chain);
    ViewIs(chain);
    ReceivedDeterminesChain(chain.rules, chain.genesis, rcv, view, chain.GetView());
    var r := chain.MineBlock(miner, body, timestamp);
    mined := r.value;
  }

  lemma TemplateParent(parent: Block, timestamp: int, miner: string, body: Body)
    ensures MinedTemplate(parent, timestamp, miner, body).header.parentHash == parent.hash
  {
  }

  lemma ViewIs(chain: Blockchain)
    ensures chain.GetView() == View(chain.db, chain.latest, chain.latestMeta, chain.state)
  {
  }

  lemma ChildIsOrphan(k: Known, child: Block)
    requires child.hash !in k.blocks && child.header.number > 0 && child.header.parentHash !in k.blocks
    ensures IsOrphan(k, child)
  {
  }

  lemma ParkedAt(parked: map<string, Block>, b: Block)
    requires b.hash !in parked
    ensures b.hash in Parked(parked, b) && Parked(parked, b)[b.hash] == b
  {
  }

  /** No delivery of other blocks, however many and whichever, stores such a child or unparks it. */
  method OrphanStaysParked(chain: Blockchain, validate: Validator, fork: ForkChoice, child: Block, blocks: seq<Block>)
    returns (clean: bool)
    requires chain.Valid() && fork.Valid()
    requires child.hash in fork.bufferedByHash && fork.bufferedByHash[child.hash] == child
    requires child.hash !in chain.db.blocks && child.header.parentHash in chain.db.blocks
    requires forall b :: b in blocks ==> b.hash != child.hash
    modifies chain, fork
    ensures chain.Valid() && fork.Valid()
    ensures child.hash in fork.bufferedByHash && fork.bufferedByHash[child.hash] == child
    ensures child.hash !in chain.db.blocks && child.header.parentHash in chain.db.blocks
  {
    hide *;
    ChainSettles(chain);
    ChainKnows(chain);
    ReceivedHashes(chain.rules, chain.genesis, chain.received, chain.db);
    BufferIsByHash(fork);
    StrandedStaysThroughout(chain.rules, validate, KnownOf(chain), fork.bufferedByHash, blocks, child.hash);
    clean := DeliverAll(chain, validate, fork, blocks);
    ChainSettles(chain);
    ChainKnows(chain);
    ReceivedHashes(chain.rules, chain.genesis, chain.received, chain.db);
  }

  /** Delivering such a child again stores it, and the parked copy stays. */
  method OrphanRedelivered(chain: Blockchain, validate: Validator, fork: ForkChoice, child: Block)
    returns (err: Option<Error>)
    requires chain.Valid() && fork.Valid()
    requires child.hash in fork.bufferedByHash && fork.bufferedByHash[child.hash] == child
    requires child.hash !in chain.db.blocks && child.header.parentHash in chain.db.blocks
    modifies chain, fork
    ensures chain.Valid() && fork.Valid()
    ensures child.hash in fork.bufferedByHash && fork.bufferedByHash[child.hash] == child
    ensures err == None ==> child.hash in chain.db.blocks
  {
    ChainKnows(chain);
    hide Drive, IsOrphan;
    ghost var k := KnownOf(chain);
    err := ImportRemoteBlock(chain, validate, fork, child);
    ChainKnows(chain);
  }

  // ---------------------------------------------------------------- a lost sibling

  /** A block that does not claim the height after its parent's is refused. */
  lemma WrongHeightFails(rules: Rules, validate: Validator, k: Known, b: Block)
    requires Sound(rules) && Settled(k) && b.header.parentHash in k.blocks
    requires b.header.number != k.blocks[b.header.parentHash].header.number + 1
    ensures TryImport(rules, validate, k, b).Failed?
  {
    var r := rules.prepare(k.blocks[b.header.parentHash], k.snapshots[b.header.parentHash], b);
    if r.Ok? {
      PrepareFits(rules, k.blocks[b.header.parentHash], k.snapshots[b.header.parentHash], b);
    }
    hide Sound;
  }

  /**
   Two children of a block are parked, of which `bad` claims its parent's height. When the parent
   arrives and is stored, `bad` comes first, is refused, and the call returns its error; `good`
   is then neither stored nor parked, whether or not it is valid.
   */
  method SiblingLost(chain: Blockchain, validate: Validator, fork: ForkChoice, block: Block, bad: Block, good: Block)
    returns (err: Option<Error>)
    requires chain.Valid() && fork.Valid()
    requires block.hash !in chain.db.blocks && block.header.parentHash in chain.db.blocks
    requires TryImport(chain.rules, validate, KnownOf(chain), block).Stored?
    requires fork.bufferedByHash == TwoParked(bad, good) && bad.hash != good.hash
    requires bad.header.parentHash == block.hash == good.header.parentHash
    requires bad.header.number == block.header.number && good.header.number == block.header.number + 1
    requires bad.hash !in chain.db.blocks && good.hash !in chain.db.blocks
    requires bad.hash != block.hash && good.hash != block.hash
    modifies chain, fork
    ensures chain.Valid() && fork.Valid()
    ensures err.Some? && block.hash in chain.db.blocks
    ensures good.hash !in chain.db.blocks && good.hash !in fork.bufferedByHash
  {
    ghost var k := KnownOf(chain);
    ChainKnows(chain);
    ChainSettles(chain);
    ghost var p := TryImport(chain.rules, validate, k, block).p;
    StoredHeight(chain.rules, validate, k, block);
    WrongHeightFails(chain.rules, validate, Grow(k, block, p), bad);
    ghost var e := TryImport(chain.rules, validate, Grow(k, block, p), bad).error;
    FailingSiblingLoses(chain.rules, validate, k, block, p, bad, good, e);
    hide Drive, TryImport, ChainValid, Sound, Replays;
    err := ImportRemoteBlock(chain, validate, fork, block);
    ChainKnows(chain);
  }

  /** An attempt looks only at the stored parent. */
  lemma AttemptIgnores(rules: Rules, validate: Validator, k: Known, b: Block, p: Prepared, other: Block)
    requires other.header.parentHash != b.hash
    ensures TryImport(rules, validate, Grow(k, b, p), other) == TryImport(rules, validate, k, other)
  {
  }

  /** Of two blocks with different hashes one comes first in byte order, and only one. */
  lemma OnePrecedes(a: string, b: string)
    requires a != b
    ensures Text.Precedes(a, b) <==> !Text.Precedes(b, a)
  {
    Text.BeforeIsByteOrder(a, b);
    Text.BeforeIsByteOrder(b, a);
    Text.BeforeTotal(a, b);
    hide Text.Before, Text.Precedes;
  }

  /** One delivery of the parent of a valid and a refused block at one height. */
  lemma LowerHashFirst(rules: Rules, validate: Validator, k: Known, block: Block, p: Prepared, bad: Block, good: Block)
    requires Settled(k) && block.hash !in k.blocks && block.header.parentHash in k.blocks
    requires TryImport(rules, validate, k, block) == Stored(p) && bad.hash != good.hash
    requires bad.header.parentHash == block.hash == good.header.parentHash
    requires bad.header.number == good.header.number > 0
    requires {bad.hash, good.hash} !! k.blocks.Keys && block.hash !in {bad.hash, good.hash}
    requires TryImport(rules, validate, Grow(k, block, p), bad).Failed?
    requires TryImport(rules, validate, Grow(k, block, p), good).Stored?
    ensures ByHash(TwoParked(bad, good))
    ensures var o := Drive(rules, validate, k, TwoParked(bad, good), [block]);
      && o.err.Some? && o.parked == map[]
      && block.hash in o.known.blocks && bad.hash !in o.known.blocks
      && (good.hash in o.known.blocks <==> Text.Precedes(good.hash, bad.hash))
  {
    hide *;
    var e := TryImport(rules, validate, Grow(k, block, p), bad).error;
    var q := TryImport(rules, validate, Grow(k, block, p), good).p;
    OnePrecedes(good.hash, bad.hash);
    GrowAdds(k, block, p);
    GrowAdds(Grow(k, block, p), good, q);
    if Text.Precedes(good.hash, bad.hash) {
      AttemptIgnores(rules, validate, Grow(k, block, p), good, q, bad);
      FailingSiblingLast(rules, validate, k, block, p, good, q, bad, e);
      EitherOrder(good, bad);
    } else {
      FailingSiblingLoses(rules, validate, k, block, p, bad, good, e);
    }
  }

  /**
   Two children of a block are parked at one height, one valid and one that is refused. When the
   parent arrives the call errs, and the valid one is stored if and only if its hash comes first in
   byte order; otherwise it is lost, neither stored nor parked.
   */
  method LowerHashDecides(chain: Blockchain, validate: Validator, fork: ForkChoice, block: Block, bad: Block,
                          good: Block) returns (err: Option<Error>)
    requires chain.Valid() && fork.Valid()
    requires block.hash !in chain.db.blocks && block.header.parentHash in chain.db.blocks
    requires TryImport(chain.rules, validate, KnownOf(chain), block).Stored?
    requires fork.bufferedByHash == TwoParked(bad, good) && bad.hash != good.hash
    requires bad.header.parentHash == block.hash == good.header.parentHash
    requires bad.header.number == good.header.number > 0
    requires {bad.hash, good.hash} !! chain.db.blocks.Keys && block.hash !in {bad.hash, good.hash}
    requires var k := Grow(KnownOf(chain), block, TryImport(chain.rules, validate, KnownOf(chain), block).p);
      && TryImport(chain.rules, validate, k, bad).Failed?
      && TryImport(chain.rules, validate, k, good).Stored?
    modifies chain, fork
    ensures chain.Valid() && fork.Valid() && fork.bufferedByHash == map[]
    ensures err.Some? && block.hash in chain.db.blocks && bad.hash !in chain.db.blocks
    ensures good.hash in chain.db.blocks <==> Text.Precedes(good.hash, bad.hash)
  {
    ghost var k := KnownOf(chain);
    ChainKnows(chain);
    ChainSettles(chain);
    hide *;
    LowerHashFirst(chain.rules, validate, k, block, TryImport(chain.rules, validate, k, block).p, bad, good);
    err := ImportRemoteBlock(chain, validate, fork, block);
    ChainKnows(chain);
  }

  lemma EitherOrder(a: Block, b: Block)
    requires a.hash != b.hash
    ensures TwoParked(a, b) == TwoParked(b, a)
  {
  }

  lemma StoredHeight(rules: Rules, validate: Validator, k: Known, b: Block)
    requires Sound(rules) && Settled(k) && TryImport(rules, validate, k, b).Stored?
    ensures TryImport(rules, validate, k, b).p.block.header.number == b.header.number > 0
    ensures Settled(Grow(k, b, TryImport(rules, validate, k, b).p))
  {
    PrepareFits(rules, k.blocks[b.header.parentHash], k.snapshots[b.header.parentHash], b);
    hide Sound;
  }
}
