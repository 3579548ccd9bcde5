/** Two nodes that store the same blocks and prefer different tips, because a long page scored differently. */
module TipSplit {
  import opened Records
  import opened Chain
  import opened Blocks
  import opened Replay
  import opened Node
  import opened Rebroadcast
  import opened Splits
  import Work

  /** What a fresh chain holds. */
  lemma FreshTip(rules: Rules, g: Genesis, v: View)
    requires ChainValid(rules, g, map[], v)
    ensures v.db.blocks == map[g.block.hash := g.block] && v.db.snapshots == map[g.block.hash := g.state]
    ensures v.latest == g.block && v.state == g.state
  {
    assert v.db.blocks.Keys == {g.block.hash};
  }

  /** A received child of the genesis has the work that its preparation gave it. */
  lemma ChildMeta(rules: Rules, g: Genesis, rcv: map<string, Block>, db: Store, h: string, p: Prepared)
    requires Sound(rules) && Replays(rules, g, rcv, db) && h in rcv
    requires rules.prepare(g.block, g.state, rcv[h]) == Ok(p)
    ensures h in db.metas && db.metas[h].cumulativeWork == p.work
    ensures g.block.hash in db.metas && db.metas[g.block.hash].cumulativeWork == 0
  {
    ReplaysMeans(rules, g, rcv, db);
    assert Derived(rules, rcv, db, h);
    hide Replays;
    HashesMatch(rules, g, rcv, db);
    ParentIsNamed(rules, rcv, db, h);
    assert PreparedFits(rules.hashOf, g.block, rcv[h], p);
  }

  lemma HashesMatch(rules: Rules, g: Genesis, rcv: map<string, Block>, db: Store)
    requires Replays(rules, g, rcv, db)
    ensures forall k :: k in db.blocks ==> db.blocks[k].hash == k
  {
  }

  /** Of two received children of the genesis, the one with more work is the tip. */
  lemma HeavierIsTip(rules: Rules, g: Genesis, rcv: map<string, Block>, v: View, x: string, px: Prepared, y: string,
                     py: Prepared)
    requires Sound(rules) && ChainValid(rules, g, rcv, v) && rcv.Keys == {x, y}
    requires rules.prepare(g.block, g.state, rcv[x]) == Ok(px) && rules.prepare(g.block, g.state, rcv[y]) == Ok(py)
    requires px.work > py.work
    ensures v.latest.hash == x
  {
    ChildMeta(rules, g, rcv, v.db, x, px);
    ChildMeta(rules, g, rcv, v.db, y, py);
    TipIsKnown(rules, g, rcv, v);
    hide ChainValid, Sound;
    var tip := v.latest.hash;
    assert tip != x ==> IsPreferredTip(v.db.metas[tip], v.db.metas[x]);
  }

  lemma TipIsKnown(rules: Rules, g: Genesis, rcv: map<string, Block>, v: View)
    requires ChainValid(rules, g, rcv, v)
    ensures v.latest.hash == g.block.hash || v.latest.hash in rcv
    ensures BestTip(v.db.metas, v.latest.hash)
  {
    hide Linked, Indexed, BestTip;
  }

  lemma RulesPrepare(net: Network, parent: Block, s: Snapshot, block: Block)
    ensures LedgerRules(net).prepare(parent, s, block) == PrepareBlock(net, parent, s, block)
  {
    hide PrepareBlock;
  }

  /**
   A block with one proof of a page of one long word, for a task of difficulty 10000, is mined on the
   genesis and sent to a second node. Both are sent a sibling `y` whose work lies between the two
   counts of the first block. They store the same blocks and snapshots and prefer different tips.
   */
  method TipsPart(net: Network, g: Genesis, miner: string, body: Body, timestamp: int, proof: CrawlProof, y: Block)
    returns (a: Blockchain, b: Blockchain, x: Block)
    requires Sound(LedgerRules(net)) && GenesisFits(LedgerRules(net), g)
    requires body.proofs == [proof] && IsLongPage(net.env, proof.page)
    requires var raw := MinedTemplate(g.block, timestamp, miner, body);
      && PrepareBlock(net, g.block, g.state, raw).Ok?
      && (var task := Work.TaskOf(ScoredTasks(net, g.state, raw), proof); task.Some? && task.value.difficulty == 10000)
      && var p := PrepareBlock(net, g.block, g.state, raw).value;
      && PrepareBlock(net, g.block, g.state, y).Ok?
      && var q := PrepareBlock(net, g.block, g.state, y).value;
      && q.block == y && y.hash != p.block.hash && p.work - 640 < q.work < p.work
    ensures a.Valid() && b.Valid() && a.rules == b.rules == LedgerRules(net) && a.genesis == b.genesis == g
    ensures a.db.blocks == b.db.blocks && a.db.snapshots == b.db.snapshots
    ensures a.latest.hash == x.hash && b.latest.hash == y.hash && x.hash != y.hash
  {
    hide *;
    var rules := LedgerRules(net);
    ghost var raw := MinedTemplate(g.block, timestamp, miner, body);
    ghost var p, q := PrepareBlock(net, g.block, g.state, raw).value, PrepareBlock(net, g.block, g.state, y).value;
    TemplateBody(g.block, timestamp, miner, body);
    LongBodySplitsWork(net, g.block, g.state, raw, proof);
    ghost var less := p.(work := p.work - 640);
    RulesPrepare(net, g.block, g.state, raw);
    RulesPrepare(net, g.block, g.state, y);
    RulesPrepare(net, g.block, g.state, p.block);
    Prepares(net, g, raw);
    Prepares(net, g, y);
    NotRepeated(rules, g.block, g.state, raw, p);
    a := OpenFresh(rules, g);
    x := MineFirst(a, miner, body, timestamp, p);
    ImportChild(a, y, q);
    b := OpenFresh(rules, g);
    ImportChild(b, x, less);
    ImportChild(b, y, q);
    HeavierIsLatest(a, x.hash, raw, p, y.hash, y, q);
    HeavierIsLatest(b, y.hash, y, q, x.hash, x, less);
  }

  lemma HeavierIsLatest(chain: Blockchain, x: string, rawX: Block, px: Prepared, y: string, rawY: Block, py: Prepared)
    requires chain.Valid() && x != y && chain.received.Keys == {x, y}
    requires chain.received[x] == rawX && chain.received[y] == rawY
    requires chain.rules.prepare(chain.genesis.block, chain.genesis.state, rawX) == Ok(px)
    requires chain.rules.prepare(chain.genesis.block, chain.genesis.state, rawY) == Ok(py)
    requires px.work > py.work
    ensures chain.latest.hash == x
  {
    Opened(chain);
    ViewIs(chain);
    hide *;
    HeavierIsTip(chain.rules, chain.genesis, chain.received, chain.GetView(), x, px, y, py);
  }

  method OpenFresh(rules: Rules, g: Genesis) returns (chain: Blockchain)
    requires Sound(rules) && GenesisFits(rules, g)
    ensures fresh(chain) && chain.Valid() && chain.received == map[] && chain.rules == rules && chain.genesis == g
    ensures chain.db.blocks == map[g.block.hash := g.block] && chain.db.snapshots == map[g.block.hash := g.state]
    ensures chain.latest == g.block && chain.state == g.state
  {
    hide *;
    chain := new Blockchain(rules, g);
    Opened(chain);
    FreshTip(rules, g, chain.GetView());
    ViewIs(chain);
  }

  method MineFirst(chain: Blockchain, miner: string, body: Body, timestamp: int, ghost p: Prepared) returns (x: Block)
    requires chain.Valid()
    requires var raw := MinedTemplate(chain.latest, timestamp, miner, body);
      chain.rules.prepare(chain.latest, chain.state, raw) == Ok(p)
    modifies chain
    ensures chain.Valid() && x == p.block
    ensures var raw := MinedTemplate(old(chain.latest), timestamp, miner, body);
      chain.received == old(chain.received)[p.block.hash :=
        MinedFrom(chain.rules, old(chain.latest), old(chain.state), raw, p)]
    ensures chain.db.blocks == old(chain.db).blocks[p.block.hash := p.block]
    ensures chain.db.snapshots == old(chain.db).snapshots[p.block.hash := p.state]
  {
    hide *;
    var mined := chain.MineBlock(miner, body, timestamp);
    x := mined.value;
  }

  /** Importing a new block with a stored parent. */
  method ImportChild(chain: Blockchain, block: Block, ghost p: Prepared)
    requires chain.Valid() && block.hash != "" && block.hash !in chain.db.blocks
    requires var parent := block.header.parentHash;
      && parent in chain.db.blocks && parent in chain.db.snapshots
      && chain.rules.prepare(chain.db.blocks[parent], chain.db.snapshots[parent], block) == Ok(p)
    modifies chain
    ensures chain.Valid()
    ensures chain.received == old(chain.received)[block.hash := block]
    ensures chain.db.blocks == old(chain.db).blocks[block.hash := p.block]
    ensures chain.db.snapshots == old(chain.db).snapshots[block.hash := p.state]
  {
    hide *;
    var err := chain.ImportBlock(block);
  }

  lemma TemplateBody(parent: Block, timestamp: int, miner: string, body: Body)
    ensures MinedTemplate(parent, timestamp, miner, body).body == body
  {
  }

  /** A block prepared on the genesis names it and has a hash of its own. */
  lemma Prepares(net: Network, g: Genesis, block: Block)
    requires Sound(LedgerRules(net)) && GenesisFits(LedgerRules(net), g)
    requires PrepareBlock(net, g.block, g.state, block).Ok?
    ensures var p := PrepareBlock(net, g.block, g.state, block).value;
      p.block.hash != "" && p.block.hash != g.block.hash && p.block.header.parentHash == g.block.hash
  {
    hide PrepareBlock;
    var rules := LedgerRules(net);
    RulesPrepare(net, g.block, g.state, block);
    var p := rules.prepare(g.block, g.state, block).value;
    assert PreparedFits(rules.hashOf, g.block, block, p);
    assert rules.hashOf(p.block.header) == p.block.hash && rules.hashOf(g.block.header) == g.block.hash;
  }

  lemma Opened(chain: Blockchain)
    requires chain.Valid()
    ensures Sound(chain.rules) && GenesisFits(chain.rules, chain.genesis)
    ensures ChainValid(chain.rules, chain.genesis, chain.received, chain.GetView())
  {
    hide Sound, ChainValid;
  }

  lemma ViewIs(chain: Blockchain)
    ensures chain.GetView() == View(chain.db, chain.latest, chain.latestMeta, chain.state)
  {
  }

  lemma NotRepeated(rules: Rules, parent: Block, s: Snapshot, raw: Block, p: Prepared)
    requires !Repeats(rules, parent, s, p)
    ensures MinedFrom(rules, parent, s, raw, p) == raw
  {
    hide Repeats;
  }
}
