/** The canonical chain in plain terms, and a reorganisation to a shorter branch with more work. */
module TipChoice {
  import opened Records
  import opened Chain
  import opened Blocks
  import opened TipSplit
  import Text

  /** A linked run of blocks from the genesis to the tip, at every height from 0 to the tip's and no other. */
  ghost predicate IndexRuns(g: Genesis, index: map<nat, Block>, tip: Block) {
    var top := tip.header.number;
    && (forall n: nat :: n in index <==> n <= top)
    && index[0] == g.block && index[top] == tip
    && (forall n: nat :: 0 < n <= top ==> index[n].header.parentHash == index[n - 1].hash)
    && (forall n: nat :: n <= top ==> index[n].header.number == n)
  }

  /** The block is flagged exactly when the index holds it. */
  ghost predicate Marked(v: View, h: string)
    requires h in v.db.metas
  {
    var n := v.db.metas[h].number;
    v.db.metas[h].canonical <==>
      n <= v.latest.header.number && n in v.db.byNumber && v.db.byNumber[n].hash == h
  }

  /**
   The height index is a linked run of stored blocks from the genesis to the tip, and the flags
   mark exactly the blocks in it.
   */
  ghost predicate CanonicalRun(g: Genesis, v: View) {
    IndexRuns(g, v.db.byNumber, v.latest) && forall h :: h in v.db.metas ==> Marked(v, h)
  }

  /** The entry at one height. */
  lemma IndexAt(blocks: map<string, Block>, root: string, tip: string, n: nat)
    requires Tree(blocks, root) && tip in blocks && n <= blocks[tip].header.number
    ensures var index, path := HeightIndex(blocks, root, tip), Path(blocks, root, tip);
      && n in index && path[n] in blocks && index[n] == blocks[path[n]] && index[n].hash == path[n]
      && index[n].header.number == n
      && (n > 0 ==> index[n].header.parentHash == path[n - 1])
  {
    PathStep(blocks, root, tip, n);
  }

  lemma IndexKeys(blocks: map<string, Block>, root: string, tip: string)
    requires Tree(blocks, root) && tip in blocks
    ensures forall n: nat :: n in HeightIndex(blocks, root, tip) <==> n <= blocks[tip].header.number
  {
  }

  lemma FlagAt(db: Store, root: string, tip: string, h: string)
    requires Linked(db, root) && tip in db.blocks && Indexed(db, root, tip) && h in db.metas
    ensures db.metas[h].canonical <==> h in Path(db.blocks, root, tip)
    ensures db.metas[h].number == db.blocks[h].header.number && h in db.blocks
  {
    hide Tree, HeightIndex;
  }

  lemma ValidParts(rules: Rules, g: Genesis, rcv: map<string, Block>, v: View)
    requires ChainValid(rules, g, rcv, v)
    ensures Linked(v.db, g.block.hash) && Tree(v.db.blocks, g.block.hash)
    ensures v.latest.hash in v.db.blocks && v.latest == v.db.blocks[v.latest.hash]
    ensures Indexed(v.db, g.block.hash, v.latest.hash)
    ensures v.db.byNumber == HeightIndex(v.db.blocks, g.block.hash, v.latest.hash)
    ensures v.db.blocks[g.block.hash] == g.block
  {
    hide BestTip, Derived, HeightIndex, Flagged;
  }

  lemma IndexIsRun(g: Genesis, blocks: map<string, Block>, tip: string)
    requires Tree(blocks, g.block.hash) && tip in blocks && blocks[g.block.hash] == g.block
    ensures IndexRuns(g, HeightIndex(blocks, g.block.hash, tip), blocks[tip])
  {
    var index, top := HeightIndex(blocks, g.block.hash, tip), blocks[tip].header.number;
    IndexKeys(blocks, g.block.hash, tip);
    IndexAt(blocks, g.block.hash, tip, 0);
    IndexAt(blocks, g.block.hash, tip, top);
    hide HeightIndex, Tree;
    forall n: nat | n <= top
      ensures index[n].header.number == n && (n > 0 ==> index[n].header.parentHash == index[n - 1].hash)
    {
      IndexAt(blocks, g.block.hash, tip, n);
      if n > 0 {
        IndexAt(blocks, g.block.hash, tip, n - 1);
      }
    }
  }

  /** In every valid chain, whatever was mined, imported or reorganised. */
  lemma ValidIsCanonicalRun(rules: Rules, g: Genesis, rcv: map<string, Block>, v: View)
    requires ChainValid(rules, g, rcv, v)
    ensures CanonicalRun(g, v)
  {
    ValidParts(rules, g, rcv, v);
    hide *;
    var root, tip, top := g.block.hash, v.latest.hash, v.latest.header.number;
    IndexIsRun(g, v.db.blocks, tip);
    forall h | h in v.db.metas
      ensures Marked(v, h)
    {
      FlagAt(v.db, root, tip, h);
      OnPath(v.db.blocks, root, tip, h);
      MarkedFrom(v, root, h);
    }
  }

  lemma MarkedFrom(v: View, root: string, h: string)
    requires Tree(v.db.blocks, root) && v.latest.hash in v.db.blocks && v.latest == v.db.blocks[v.latest.hash]
    requires v.db.byNumber == HeightIndex(v.db.blocks, root, v.latest.hash)
    requires h in v.db.metas && h in v.db.blocks && v.db.metas[h].number == v.db.blocks[h].header.number
    requires v.db.metas[h].canonical <==> h in Path(v.db.blocks, root, v.latest.hash)
    requires h in Path(v.db.blocks, root, v.latest.hash) <==>
      v.db.metas[h].number <= v.latest.header.number
      && Path(v.db.blocks, root, v.latest.hash)[v.db.metas[h].number] == h
    ensures Marked(v, h)
  {
    if v.db.metas[h].number <= v.latest.header.number {
      IndexAt(v.db.blocks, root, v.latest.hash, v.db.metas[h].number);
    }
    hide HeightIndex, Tree;
  }

  lemma LatestParts(chain: Blockchain)
    requires chain.Valid()
    ensures chain.latest.hash in chain.db.metas && chain.latestMeta == chain.db.metas[chain.latest.hash]
    ensures chain.db.metas.Keys == chain.db.blocks.Keys == chain.db.snapshots.Keys
    ensures forall h :: h in chain.db.blocks ==> chain.db.blocks[h].hash == h
    ensures CanonicalRun(chain.genesis, chain.GetView())
  {
    ValidIsCanonicalRun(chain.rules, chain.genesis, chain.received, chain.GetView());
    hide Sound, CanonicalRun, Indexed, BestTip, Derived;
  }

  lemma MoreWorkOutweighs(work: nat, number: nat, hash: string, current: Meta)
    requires work > current.cumulativeWork
    ensures Outweighs(work, number, hash, current)
  {
    hide Text.Precedes;
  }

  lemma LessWorkDoesNot(work: nat, number: nat, hash: string, current: Meta)
    requires work < current.cumulativeWork
    ensures !Outweighs(work, number, hash, current)
  {
    hide Text.Precedes;
  }

  /**
   A block whose branch has more cumulative work than the tip, at whatever height, is imported: it
   becomes the tip, and the height index ends at its height and runs along its own branch.
   */
  method HeavierBranchTakesOver(chain: Blockchain, block: Block, ghost p: Prepared)
    requires chain.Valid() && block.hash != "" && block.hash !in chain.db.blocks
    requires var parent := block.header.parentHash;
      && parent in chain.db.blocks && parent in chain.db.snapshots && parent in chain.db.metas
      && chain.rules.prepare(chain.db.blocks[parent], chain.db.snapshots[parent], block) == Ok(p)
      && chain.db.metas[parent].cumulativeWork + p.work > chain.latestMeta.cumulativeWork
    modifies chain
    ensures chain.Valid() && chain.latest == p.block && chain.state == p.state
    ensures CanonicalRun(chain.genesis, chain.GetView())
    ensures chain.db.blocks == old(chain.db).blocks[block.hash := p.block]
    ensures chain.db.snapshots == old(chain.db).snapshots[block.hash := p.state]
    ensures chain.latestMeta.cumulativeWork == old(chain.db).metas[block.header.parentHash].cumulativeWork + p.work
    ensures p.block.hash == block.hash && block.hash in chain.db.metas && chain.latestMeta == chain.db.metas[block.hash]
    ensures chain.genesis.block.hash in chain.db.metas
    ensures chain.db.metas[chain.genesis.block.hash].cumulativeWork == 0
  {
    hide *;
    var err := chain.ImportBlock(block);
    MoreWorkOutweighs(old(chain.db).metas[block.header.parentHash].cumulativeWork + p.work, block.header.number,
                      block.hash, old(chain.latestMeta));
    LatestParts(chain);
    GenesisMeta(chain);
  }

  /** A prepared block that names its hash keeps its header and stands one above its parent. */
  lemma NamedHeight(rules: Rules, parent: Block, state: Snapshot, block: Block, p: Prepared)
    requires Sound(rules) && rules.prepare(parent, state, block) == Ok(p) && block.hash != ""
    ensures p.block.hash == block.hash && p.block.header.number == parent.header.number + 1
  {
    assert PreparedFits(rules.hashOf, parent, block, p);
  }

  lemma GenesisHeight(rules: Rules, g: Genesis)
    requires GenesisFits(rules, g)
    ensures g.block.header.number == 0
  {
  }

  /** The index of a run of two blocks. */
  lemma TwoHigh(g: Genesis, v: View, x: Block)
    requires CanonicalRun(g, v) && v.latest == x && x.header.number == 1
    ensures v.db.byNumber == map[0 := g.block, 1 := x]
  {
  }

  /**
   The chain holds the genesis and, on it, a branch of two blocks as its tip. A sibling of the first with
   more work than both together arrives: the chain reorganises to it, and height 2 leaves the index.
   */
  method ShorterBranchWins(rules: Rules, g: Genesis, a1: Block, pa1: Prepared, a2: Block, pa2: Prepared, b1: Block,
                           pb1: Prepared) returns (chain: Blockchain)
    requires Sound(rules) && GenesisFits(rules, g)
    requires a1.header.parentHash == b1.header.parentHash == g.block.hash && a2.header.parentHash == a1.hash
    requires {"", g.block.hash} !! {a1.hash, a2.hash, b1.hash}
    requires a1.hash != a2.hash && a1.hash != b1.hash && a2.hash != b1.hash
    requires rules.prepare(g.block, g.state, a1) == Ok(pa1) && rules.prepare(pa1.block, pa1.state, a2) == Ok(pa2)
    requires rules.prepare(g.block, g.state, b1) == Ok(pb1)
    requires 0 < pa1.work && 0 < pa2.work && pa1.work + pa2.work < pb1.work
    ensures chain.Valid() && chain.latest == pb1.block && chain.state == pb1.state
    ensures chain.db.byNumber == map[0 := g.block, 1 := pb1.block]
    ensures a2.hash in chain.db.blocks && chain.db.blocks[a2.hash].header.number == 2
  {
    hide *;
    NamedHeight(rules, g.block, g.state, a1, pa1);
    NamedHeight(rules, pa1.block, pa1.state, a2, pa2);
    NamedHeight(rules, g.block, g.state, b1, pb1);
    GenesisHeight(rules, g);
    chain := OpenFresh(rules, g);
    FreshMeta(chain);
    HeavierBranchTakesOver(chain, a1, pa1);
    HeavierBranchTakesOver(chain, a2, pa2);
    HeavierBranchTakesOver(chain, b1, pb1);
    ViewIs(chain);
    TwoHigh(g, chain.GetView(), pb1.block);
  }

  lemma FreshMeta(chain: Blockchain)
    requires chain.Valid() && chain.latest == chain.genesis.block
    ensures chain.genesis.block.hash in chain.db.metas && chain.latestMeta.cumulativeWork == 0
    ensures chain.db.metas[chain.genesis.block.hash].cumulativeWork == 0
  {
    LatestParts(chain);
    GenesisMeta(chain);
    hide *;
  }

  lemma GenesisMeta(chain: Blockchain)
    requires chain.Valid()
    ensures chain.genesis.block.hash in chain.db.metas
    ensures chain.db.metas[chain.genesis.block.hash].cumulativeWork == 0
  {
    hide Sound, Indexed, BestTip, Derived;
  }
}
