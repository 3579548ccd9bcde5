/**
 The block tree: tip preference, paths from the root, and the stored maps. The state transition
 of one block is a parameter (`Rules`); `Node.LedgerRules` supplies the ledger's.
 */
module Chain {
  import opened Records
  import Text

  /** What preparing a block against its parent yields. */
  datatype Prepared = Prepared(block: Block, state: Snapshot, work: nat)

  /** Block preparation (parent, parent state, block) and the header digest. */
  datatype Rules = Rules(prepare: (Block, Snapshot, Block) -> Result<Prepared>, hashOf: Header -> string)

  datatype Genesis = Genesis(block: Block, state: Snapshot)

  /** What the tree needs of a prepared block. */
  ghost predicate PreparedFits(hashOf: Header -> string, parent: Block, block: Block, p: Prepared) {
    && block.header.number == parent.header.number + 1 == p.block.header.number
    && block.header.parentHash == parent.hash == p.block.header.parentHash
    && p.block.hash == hashOf(p.block.header)
    && (block.hash != "" ==> p.block.hash == block.hash && p.block.header == block.header)
  }

  ghost predicate CollisionFree(hashOf: Header -> string) {
    && (forall a, b {:trigger hashOf(a), hashOf(b)} :: hashOf(a) == hashOf(b) ==> a == b)
    && (forall a :: hashOf(a) != "")
  }

  ghost predicate Sound(rules: Rules) {
    && CollisionFree(rules.hashOf)
    && (forall parent, state, block ::
          rules.prepare(parent, state, block).Ok? ==>
            PreparedFits(rules.hashOf, parent, block, rules.prepare(parent, state, block).value))
    && (forall parent, state, block :: rules.prepare(parent, state, block) != Err(BlockNotFound))
  }

  ghost predicate GenesisFits(rules: Rules, g: Genesis) {
    && g.block.header.number == 0
    && g.block.header.parentHash == ""
    && g.block.hash == rules.hashOf(g.block.header)
  }

  /** The prepared block, as broadcast, prepares to the same again. */
  predicate Repeats(rules: Rules, parent: Block, state: Snapshot, p: Prepared) {
    rules.prepare(parent, state, p.block) == Ok(p)
  }

  /** What a mined block stands for: itself as broadcast, or the template it was made from if it does not repeat. */
  function MinedFrom(rules: Rules, parent: Block, state: Snapshot, template: Block, p: Prepared): Block {
    if Repeats(rules, parent, state, p) then p.block else template
  }

  // ---------------------------------------------------------------- tip preference

  predicate IsPreferredTip(candidate: Meta, current: Meta) {
    if candidate.cumulativeWork != current.cumulativeWork then candidate.cumulativeWork > current.cumulativeWork
    else if candidate.number != current.number then candidate.number > current.number
    else Text.Before(candidate.hash, current.hash)
  }

  /** Preference is a strict total order on metadata with distinct hashes. */
  lemma PreferenceIsStrictTotalOrder(a: Meta, b: Meta, c: Meta)
    ensures !IsPreferredTip(a, a)
    ensures IsPreferredTip(a, b) && IsPreferredTip(b, c) ==> IsPreferredTip(a, c)
    ensures a.hash != b.hash ==> (IsPreferredTip(a, b) <==> !IsPreferredTip(b, a))
  {
    Text.BeforeIrreflexive(a.hash);
    if a.hash != b.hash {
      Text.BeforeTotal(a.hash, b.hash);
    }
    if Text.Before(a.hash, b.hash) && Text.Before(b.hash, c.hash) {
      Text.BeforeTransitive(a.hash, b.hash, c.hash);
    }
  }

  // ---------------------------------------------------------------- the block tree

  ghost predicate IsChild(blocks: map<string, Block>, h: string)
    requires h in blocks
  {
    var header := blocks[h].header;
    header.parentHash in blocks && header.number == blocks[header.parentHash].header.number + 1
  }

  ghost predicate Tree(blocks: map<string, Block>, root: string) {
    && "" !in blocks
    && root in blocks
    && blocks[root].header.number == 0
    && blocks[root].header.parentHash == ""
    && (forall h :: h in blocks ==> blocks[h].hash == h)
    && (forall h {:trigger IsChild(blocks, h)} :: h in blocks && h != root ==> IsChild(blocks, h))
  }

  /** The hashes from the root to `h`, indexed by height. */
  ghost function Path(blocks: map<string, Block>, root: string, h: string): (path: seq<string>)
    requires Tree(blocks, root) && h in blocks
    ensures |path| == blocks[h].header.number + 1 && path[|path| - 1] == h && path[0] == root
    decreases blocks[h].header.number
  {
    if h == root then [h]
    else
      assert IsChild(blocks, h);
      Path(blocks, root, blocks[h].header.parentHash) + [h]
  }

  /** Entry `n` of a path is the ancestor at height `n`, and the path up to it is that ancestor's path. */
  lemma {:induction false} PathAt(blocks: map<string, Block>, root: string, h: string, n: nat)
    requires Tree(blocks, root) && h in blocks && n <= blocks[h].header.number
    ensures Path(blocks, root, h)[n] in blocks
    ensures var a := Path(blocks, root, h)[n];
      && blocks[a].header.number == n
      && Path(blocks, root, a) == Path(blocks, root, h)[..n + 1]
    decreases blocks[h].header.number
  {
    var path := Path(blocks, root, h);
    if n == blocks[h].header.number {
      assert path[..n + 1] == path;
    } else {
      var parent := blocks[h].header.parentHash;
      assert IsChild(blocks, h);
      PathAt(blocks, root, parent, n);
      assert path[..n + 1] == Path(blocks, root, parent)[..n + 1];
    }
  }

  /** Each entry of a path is the child of the entry before it. */
  lemma PathStep(blocks: map<string, Block>, root: string, h: string, n: nat)
    requires Tree(blocks, root) && h in blocks && n <= blocks[h].header.number
    ensures Path(blocks, root, h)[n] in blocks
    ensures var header := blocks[Path(blocks, root, h)[n]].header;
      && header.number == n
      && header.parentHash == if n == 0 then "" else Path(blocks, root, h)[n - 1]
  {
    var path := Path(blocks, root, h);
    PathAt(blocks, root, h, n);
    if n > 0 {
      var parent := blocks[path[n]].header.parentHash;
      assert IsChild(blocks, path[n]);
      assert Path(blocks, root, path[n]) == Path(blocks, root, parent) + [path[n]];
      assert path[n - 1] == path[..n + 1][n - 1] == parent;
    } else {
      assert path[0] == root;
    }
  }

  /** A block is on a path exactly when it is the entry at its own height. */
  lemma OnPath(blocks: map<string, Block>, root: string, h: string, x: string)
    requires Tree(blocks, root) && h in blocks && x in blocks
    ensures x in Path(blocks, root, h) <==>
      blocks[x].header.number <= blocks[h].header.number && Path(blocks, root, h)[blocks[x].header.number] == x
  {
    var path := Path(blocks, root, h);
    if x in path {
      var n :| 0 <= n < |path| && path[n] == x;
      PathAt(blocks, root, h, n);
    }
  }

  /** Storing a fresh child leaves every existing path as it was. */
  lemma {:induction false} PathFrame(blocks: map<string, Block>, more: map<string, Block>, root: string, h: string)
    requires Tree(blocks, root) && Tree(more, root) && h in blocks
    requires forall k :: k in blocks ==> k in more && more[k] == blocks[k]
    ensures Path(more, root, h) == Path(blocks, root, h)
    decreases blocks[h].header.number
  {
    if h != root {
      assert IsChild(blocks, h);
      PathFrame(blocks, more, root, blocks[h].header.parentHash);
    }
  }

  // ---------------------------------------------------------------- storage

  /** The database: one atomic map update stands for one Badger transaction. */
  datatype Store = Store(
    blocks: map<string, Block>,
    metas: map<string, Meta>,
    snapshots: map<string, Snapshot>,
    byNumber: map<nat, Block>,
    latestHash: string,
    latestNumber: nat)

  /** Metadata and snapshots are kept for exactly the stored blocks, and the links agree. */
  ghost predicate Linked(db: Store, root: string) {
    && Tree(db.blocks, root)
    && db.metas.Keys == db.blocks.Keys == db.snapshots.Keys
    && forall h :: h in db.metas ==>
         && db.metas[h].hash == h
         && db.metas[h].parentHash == db.blocks[h].header.parentHash
         && db.metas[h].number == db.blocks[h].header.number
  }

  /** The height index of the path to `tip`. */
  ghost function HeightIndex(blocks: map<string, Block>, root: string, tip: string): map<nat, Block>
    requires Tree(blocks, root) && tip in blocks
  {
    map n: nat | n <= blocks[tip].header.number :: (PathAt(blocks, root, tip, n); blocks[Path(blocks, root, tip)[n]])
  }

  ghost function Flagged(metas: map<string, Meta>, path: seq<string>): map<string, Meta> {
    map h | h in metas :: metas[h].(canonical := h in path)
  }

  /** The height index holds exactly the tip's path and the canonical flags mark exactly that path. */
  ghost predicate Indexed(db: Store, root: string, tip: string)
    requires Linked(db, root) && tip in db.blocks
  {
    && db.byNumber == HeightIndex(db.blocks, root, tip)
    && db.metas == Flagged(db.metas, Path(db.blocks, root, tip))
  }
}
