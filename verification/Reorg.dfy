/** Moving the canonical tip from one branch of the block tree to another. */
module Reorg {
  import opened Records
  import opened Chain

  /** `path` is a root-first chain of stored metadata, each entry at its height. */
  ghost predicate Chained(metas: map<string, Meta>, path: seq<string>) {
    && (forall n :: 0 <= n < |path| ==>
          && path[n] in metas && path[n] != ""
          && metas[path[n]].hash == path[n]
          && metas[path[n]].number == n)
    && (path != [] ==> metas[path[0]].parentHash == "")
    && (forall m, n :: 0 <= m && n == m + 1 < |path| ==> metas[path[n]].parentHash == path[m])
  }

  lemma PathIsChained(db: Store, root: string, tip: string)
    requires Linked(db, root) && tip in db.blocks
    ensures Chained(db.metas, Path(db.blocks, root, tip))
  {
    var path := Path(db.blocks, root, tip);
    forall n | 0 <= n < |path|
      ensures path[n] in db.metas && path[n] != "" && db.metas[path[n]].hash == path[n] && db.metas[path[n]].number == n
    {
      PathStep(db.blocks, root, tip, n);
    }
    PathStep(db.blocks, root, tip, 0);
    forall m, n | 0 <= m && n == m + 1 < |path|
      ensures db.metas[path[n]].parentHash == path[m]
    {
      PathStep(db.blocks, root, tip, n);
    }
  }

  /** The metadata on a path above height `fork`, tip first. */
  ghost predicate WalkedDown(metas: map<string, Meta>, path: seq<string>, fork: int, walked: seq<Meta>) {
    && -1 <= fork < |path|
    && |walked| == |path| - 1 - fork
    && forall n :: fork < n < |path| ==> path[n] in metas && walked[|path| - 1 - n] == metas[path[n]]
  }

  /** `fork` is the greatest height at which the two paths agree. */
  ghost predicate ForkPoint(p: seq<string>, q: seq<string>, fork: nat) {
    && fork < |p| && fork < |q|
    && p[fork] == q[fork]
    && forall j :: fork < j < |q| ==> q[j] !in p
  }

  /** The parent walk that collects every hash from a tip down to the root. */
  method AncestorsOf(metas: map<string, Meta>, tip: string, ghost path: seq<string>) returns (seen: set<string>)
    requires Chained(metas, path) && path != [] && path[|path| - 1] == tip
    ensures forall h :: h in seen <==> h in path
  {
    ghost var i := |path| - 1;
    seen := {};
    var current := tip;
    while current != ""
      invariant -1 <= i < |path|
      invariant i < 0 ==> current == ""
      invariant i >= 0 ==> current == path[i]
      invariant forall n :: i < n < |path| ==> path[n] in seen
      invariant forall h :: h in seen ==> h in path
      decreases i
    {
      seen := seen + {current};
      assert i > 0 ==> metas[path[i]].parentHash == path[i - 1];
      current := metas[current].parentHash;
      i := i - 1;
    }
  }

  /** The parent walk that stops at the first hash in `stop`, or runs off the root. */
  method WalkTo(metas: map<string, Meta>, tip: string, stop: set<string>, ghost path: seq<string>)
    returns (walked: seq<Meta>, found: string)
    requires Chained(metas, path) && path != [] && path[|path| - 1] == tip
    ensures found == "" ==> forall n :: 0 <= n < |path| ==> path[n] !in stop
    ensures found != "" ==>
      && found in metas && found in stop
      && metas[found].number < |path| && path[metas[found].number] == found
      && WalkedDown(metas, path, metas[found].number, walked)
      && forall n :: metas[found].number < n < |path| ==> path[n] !in stop
  {
    ghost var i := |path| - 1;
    walked := [];
    found := tip;
    while found != "" && found !in stop
      invariant -1 <= i < |path|
      invariant i < 0 ==> found == ""
      invariant i >= 0 ==> found == path[i]
      invariant WalkedDown(metas, path, i, walked)
      invariant forall n :: i < n < |path| ==> path[n] !in stop
      decreases i
    {
      walked := walked + [metas[found]];
      assert i > 0 ==> metas[path[i]].parentHash == path[i - 1];
      found := metas[found].parentHash;
      i := i - 1;
    }
  }

  /**
   The blocks to leave and the blocks to join. Both parent walks end, and between stored
   tips the fork point is always found: the only errors are an empty or an unknown tip.
   */
  method ReorgPaths(db: Store, oldTip: string, newTip: string, ghost root: string)
    returns (r: Result<(seq<Meta>, seq<Meta>)>, ghost fork: nat)
    requires Linked(db, root)
    ensures newTip == "" ==> r == Err(InvalidBlock)
    ensures newTip != "" && newTip !in db.blocks ==> r == Err(BlockNotFound)
    ensures newTip in db.blocks && oldTip == "" ==> r == Ok(([], [db.metas[newTip]]))
    ensures newTip in db.blocks && oldTip != "" && oldTip !in db.blocks ==> r == Err(BlockNotFound)
    ensures newTip in db.blocks && oldTip in db.blocks ==>
      && r.Ok?
      && ForkPoint(Path(db.blocks, root, oldTip), Path(db.blocks, root, newTip), fork)
      && WalkedDown(db.metas, Path(db.blocks, root, oldTip), fork, r.value.0)
      && WalkedDown(db.metas, Path(db.blocks, root, newTip), fork, r.value.1)
  {
    fork := 0;
    if newTip == "" {
      return Err(InvalidBlock), fork;
    }
    if oldTip == "" {
      r := if newTip in db.metas then Ok(([], [db.metas[newTip]])) else Err(BlockNotFound);
      return;
    }
    if oldTip !in db.metas {
      return Err(BlockNotFound), fork;
    }
    ghost var p := Path(db.blocks, root, oldTip);
    PathIsChained(db, root, oldTip);
    var oldAncestors := AncestorsOf(db.metas, oldTip, p);
    if newTip !in db.metas {
      return Err(BlockNotFound), fork;
    }
    ghost var q := Path(db.blocks, root, newTip);
    PathIsChained(db, root, newTip);
    var newPath, commonAncestor := WalkTo(db.metas, newTip, oldAncestors, q);
    assert p[0] == root == q[0];
    fork := db.metas[commonAncestor].number;
    OnPath(db.blocks, root, oldTip, commonAncestor);
    var oldPath, stopped := WalkTo(db.metas, oldTip, {commonAncestor}, p);
    assert stopped == commonAncestor;
    r := Ok((oldPath, newPath));
  }

  /** The flags after leaving the entries of `p` above height `fork`. */
  ghost function FlagsLeft(metas: map<string, Meta>, p: seq<string>, fork: int): map<string, Meta> {
    map h | h in metas ::
      if h in p && fork < metas[h].number then metas[h].(canonical := false) else metas[h]
  }

  /** Clears the flag and the height entry of every block that is left; `p` is the old path. */
  method LeaveBranch(db: Store, oldPath: seq<Meta>, ghost p: seq<string>, ghost fork: nat)
    returns (metas: map<string, Meta>, byNumber: map<nat, Block>)
    requires Chained(db.metas, p) && WalkedDown(db.metas, p, fork, oldPath)
    ensures metas == FlagsLeft(db.metas, p, fork)
    ensures byNumber == map n | n in db.byNumber && !(fork < n < |p|) :: db.byNumber[n]
  {
    metas, byNumber := db.metas, db.byNumber;
    for i := 0 to |oldPath|
      invariant metas == FlagsLeft(db.metas, p, |p| - 1 - i)
      invariant byNumber == map n | n in db.byNumber && !(|p| - i <= n < |p|) :: db.byNumber[n]
    {
      var meta := oldPath[i];
      assert meta == db.metas[p[|p| - 1 - i]];
      metas := metas[meta.hash := meta.(canonical := false)];
      byNumber := byNumber - {meta.number};
    }
  }

  /** The flags after joining the entries of `q` from `lo` up to `hi`. */
  ghost function FlagsJoined(source: map<string, Meta>, from: map<string, Meta>, q: seq<string>, lo: nat,
    hi: nat): map<string, Meta>
    requires lo <= hi <= |q| && forall n :: 0 <= n < |q| ==> q[n] in source
  {
    if lo == hi then from
    else FlagsJoined(source, from, q, lo, hi - 1)[q[hi - 1] := source[q[hi - 1]].(canonical := true)]
  }

  /** The height index after joining the entries of `q` from `lo` up to `hi`. */
  ghost function IndexJoined(blocks: map<string, Block>, index: map<nat, Block>, q: seq<string>, lo: nat,
    hi: nat): map<nat, Block>
    requires lo <= hi <= |q| && forall n :: 0 <= n < |q| ==> q[n] in blocks
  {
    if lo == hi then index
    else IndexJoined(blocks, index, q, lo, hi - 1)[hi - 1 := blocks[q[hi - 1]]]
  }

  /** On a path the entry at a height is the only one of that height. */
  lemma LastOfPath(source: map<string, Meta>, q: seq<string>, n: nat)
    requires Chained(source, q) && n < |q|
    ensures q[n] in source && source[q[n]].number == n
    ensures forall h :: h in source && h in q && source[h].number == n ==> h == q[n]
  {
  }

  lemma {:induction false} FlagsJoinedAt(source: map<string, Meta>, from: map<string, Meta>, q: seq<string>, lo: nat,
                                         hi: nat)
    requires Chained(source, q) && lo <= hi <= |q| && from.Keys == source.Keys
    ensures FlagsJoined(source, from, q, lo, hi).Keys == source.Keys
    ensures forall h :: h in source ==>
      FlagsJoined(source, from, q, lo, hi)[h]
      == if h in q && lo <= source[h].number < hi then source[h].(canonical := true) else from[h]
  {
    if lo < hi {
      FlagsJoinedAt(source, from, q, lo, hi - 1);
      LastOfPath(source, q, hi - 1);
      assert FlagsJoined(source, from, q, lo, hi)
          == FlagsJoined(source, from, q, lo, hi - 1)[q[hi - 1] := source[q[hi - 1]].(canonical := true)];
      hide Chained, FlagsJoined;
    }
  }

  lemma {:induction false} IndexJoinedAt(blocks: map<string, Block>, index: map<nat, Block>, q: seq<string>, lo: nat,
                                         hi: nat)
    requires lo <= hi <= |q| && forall n :: 0 <= n < |q| ==> q[n] in blocks
    ensures forall n: nat :: n in IndexJoined(blocks, index, q, lo, hi) <==> n in index || lo <= n < hi
    ensures forall n: nat :: n in IndexJoined(blocks, index, q, lo, hi) ==>
      IndexJoined(blocks, index, q, lo, hi)[n] == if lo <= n < hi then blocks[q[n]] else index[n]
  {
    if lo < hi {
      IndexJoinedAt(blocks, index, q, lo, hi - 1);
    }
  }

  /** Sets the flag and the height entry of every block that is joined; `q` is the new path. */
  method JoinBranch(db: Store, from: map<string, Meta>, index: map<nat, Block>, newPath: seq<Meta>,
                    ghost q: seq<string>, ghost fork: int)
    returns (metas: map<string, Meta>, byNumber: map<nat, Block>)
    requires Chained(db.metas, q) && WalkedDown(db.metas, q, fork, newPath)
    requires from.Keys == db.metas.Keys == db.blocks.Keys
    ensures metas == FlagsJoined(db.metas, from, q, fork + 1, |q|)
    ensures byNumber == IndexJoined(db.blocks, index, q, fork + 1, |q|)
  {
    metas, byNumber := from, index;
    var i := |newPath|;
    while i > 0
      invariant 0 <= i <= |newPath|
      invariant metas == FlagsJoined(db.metas, from, q, fork + 1, |q| - i)
      invariant byNumber == IndexJoined(db.blocks, index, q, fork + 1, |q| - i)
    {
      i := i - 1;
      var meta := newPath[i];
      assert meta == db.metas[q[|q| - 1 - i]];
      metas := metas[meta.hash := meta.(canonical := true)];
      byNumber := byNumber[meta.number := db.blocks[meta.hash]];
    }
  }

  /** Before the rewrite: the index and the flags still describe the old tip, but for the new tip's own flag. */
  ghost predicate IndexedBut(db: Store, root: string, oldTip: string, newTip: string)
    requires Linked(db, root)
  {
    if oldTip == "" then db.byNumber == map[] && db.blocks.Keys == {newTip}
    else
      && oldTip in db.blocks
      && db.byNumber == HeightIndex(db.blocks, root, oldTip)
      && forall h :: h in db.metas ==>
           var onPath := h in Path(db.blocks, root, oldTip);
           (onPath ==> db.metas[h].canonical) && (db.metas[h].canonical ==> onPath || h == newTip)
  }

  /** Above the fork point neither path meets the other. */
  lemma BranchesApart(db: Store, root: string, oldTip: string, newTip: string, fork: nat)
    requires Linked(db, root) && oldTip in db.blocks && newTip in db.blocks
    requires ForkPoint(Path(db.blocks, root, oldTip), Path(db.blocks, root, newTip), fork)
    ensures var p, q := Path(db.blocks, root, oldTip), Path(db.blocks, root, newTip);
      && p[..fork + 1] == q[..fork + 1]
      && forall h :: h in db.metas ==>
           && (h in q && db.metas[h].number > fork ==> h !in p)
           && (h in p && db.metas[h].number > fork ==> h !in q)
           && (h in p && db.metas[h].number <= fork ==> h in q)
           && (h in q && db.metas[h].number <= fork ==> h in p)
  {
    var p, q := Path(db.blocks, root, oldTip), Path(db.blocks, root, newTip);
    PathAt(db.blocks, root, oldTip, fork);
    PathAt(db.blocks, root, newTip, fork);
    forall h | h in db.metas
      ensures h in q && db.metas[h].number > fork ==> h !in p
      ensures h in p && db.metas[h].number > fork ==> h !in q
      ensures h in p && db.metas[h].number <= fork ==> h in q
      ensures h in q && db.metas[h].number <= fork ==> h in p
    {
      var n := db.metas[h].number;
      OnPath(db.blocks, root, oldTip, h);
      OnPath(db.blocks, root, newTip, h);
      if n <= fork {
        assert p[n] == p[..fork + 1][n] == q[n];
      }
    }
  }

  /** The new tip's stored flag was set before the move; every other flag describes the old tip. */
  lemma FlagSetting(db: Store, root: string, oldTip: string, newTip: string, fork: nat, h: string)
    requires Linked(db, root) && oldTip in db.blocks && newTip in db.blocks && IndexedBut(db, root, oldTip, newTip)
    requires ForkPoint(Path(db.blocks, root, oldTip), Path(db.blocks, root, newTip), fork) && h in db.metas
    ensures var p, q := Path(db.blocks, root, oldTip), Path(db.blocks, root, newTip);
      && fork < |q|
      && (h in p ==> db.metas[h].canonical)
      && (db.metas[h].canonical ==> h in p || h == newTip)
      && newTip in q
  {
  }

  /** Leaving the old branch and joining the new one gives exactly the new tip's flags. */
  lemma FlagsMoved(db: Store, root: string, oldTip: string, newTip: string, fork: nat, left: map<string, Meta>,
                   joined: map<string, Meta>)
    requires Linked(db, root) && oldTip in db.blocks && newTip in db.blocks && IndexedBut(db, root, oldTip, newTip)
    requires ForkPoint(Path(db.blocks, root, oldTip), Path(db.blocks, root, newTip), fork)
    requires left == FlagsLeft(db.metas, Path(db.blocks, root, oldTip), fork)
    requires Chained(db.metas, Path(db.blocks, root, newTip))
    requires var q := Path(db.blocks, root, newTip);
      joined == FlagsJoined(db.metas, left, q, fork + 1, |q|)
    ensures joined == Flagged(db.metas, Path(db.blocks, root, newTip))
  {
    hide *;
    MoveSetting(db, root, oldTip, newTip, fork);
    var p, q := Path(db.blocks, root, oldTip), Path(db.blocks, root, newTip);
    FlagsLeftAt(db.metas, p, fork);
    FlagsJoinedAt(db.metas, left, q, fork + 1, |q|);
    FlaggedAt(db.metas, q);
    BranchesApart(db, root, oldTip, newTip, fork);
    HeightsWithin(db.metas, q);
    var target := Flagged(db.metas, q);
    forall h | h in db.metas
      ensures joined[h] == target[h]
    {
      FlagSetting(db, root, oldTip, newTip, fork, h);
    }
  }

  lemma FlagsLeftAt(metas: map<string, Meta>, p: seq<string>, fork: int)
    ensures FlagsLeft(metas, p, fork).Keys == metas.Keys
    ensures forall h :: h in metas ==>
      FlagsLeft(metas, p, fork)[h]
      == if h in p && fork < metas[h].number then metas[h].(canonical := false) else metas[h]
  {
  }

  lemma FlaggedAt(metas: map<string, Meta>, q: seq<string>)
    ensures Flagged(metas, q).Keys == metas.Keys
    ensures forall h :: h in metas ==> Flagged(metas, q)[h] == metas[h].(canonical := h in q)
  {
  }

  lemma HeightsWithin(metas: map<string, Meta>, path: seq<string>)
    requires Chained(metas, path)
    ensures forall h :: h in path ==> h in metas && metas[h].number < |path|
  {
  }

  lemma HeightIndexAt(blocks: map<string, Block>, root: string, tip: string, n: nat)
    requires Tree(blocks, root) && tip in blocks
    ensures n in HeightIndex(blocks, root, tip) <==> n < |Path(blocks, root, tip)|
    ensures n in HeightIndex(blocks, root, tip) ==>
      var h := Path(blocks, root, tip)[n];
      h in blocks && HeightIndex(blocks, root, tip)[n] == blocks[h]
  {
    if n < |Path(blocks, root, tip)| {
      PathAt(blocks, root, tip, n);
    }
  }

  lemma MoveSetting(db: Store, root: string, oldTip: string, newTip: string, fork: nat)
    requires Linked(db, root) && oldTip in db.blocks && newTip in db.blocks && IndexedBut(db, root, oldTip, newTip)
    requires var p, q := Path(db.blocks, root, oldTip), Path(db.blocks, root, newTip);
      ForkPoint(p, q, fork) && Chained(db.metas, q)
    ensures Tree(db.blocks, root) && oldTip in db.blocks && newTip in db.blocks
    ensures db.byNumber == HeightIndex(db.blocks, root, oldTip)
    ensures fork < |Path(db.blocks, root, oldTip)| && fork < |Path(db.blocks, root, newTip)|
    ensures forall n :: 0 <= n < |Path(db.blocks, root, newTip)| ==> Path(db.blocks, root, newTip)[n] in db.blocks
  {
  }

  /** One height of the index, before and after the move. */
  lemma HeightMoved(p: seq<string>, q: seq<string>, fork: nat, blocks: map<string, Block>, n: nat,
                    before: map<nat, Block>, left: map<nat, Block>, joined: map<nat, Block>)
    requires fork < |p| && fork < |q| && p[..fork + 1] == q[..fork + 1]
    requires n in before <==> n < |p|
    requires n in before ==> p[n] in blocks && before[n] == blocks[p[n]]
    requires n in left <==> n in before && !(fork < n < |p|)
    requires n in left ==> left[n] == before[n]
    requires forall k :: 0 <= k < |q| ==> q[k] in blocks
    requires n in joined <==> n in left || fork + 1 <= n < |q|
    requires n in joined ==> joined[n] == if fork + 1 <= n < |q| then blocks[q[n]] else left[n]
    ensures n in joined <==> n < |q|
    ensures n in joined ==> joined[n] == blocks[q[n]]
  {
    if n <= fork {
      assert p[n] == p[..fork + 1][n] == q[n];
    }
  }

  /** Deleting the old heights and writing the new ones gives exactly the new tip's height index. */
  lemma IndexMoved(db: Store, root: string, oldTip: string, newTip: string, fork: nat, left: map<nat, Block>,
                   joined: map<nat, Block>)
    requires Linked(db, root) && oldTip in db.blocks && newTip in db.blocks && IndexedBut(db, root, oldTip, newTip)
    requires ForkPoint(Path(db.blocks, root, oldTip), Path(db.blocks, root, newTip), fork)
    requires left == map n | n in db.byNumber && !(fork < n < |Path(db.blocks, root, oldTip)|) :: db.byNumber[n]
    requires Chained(db.metas, Path(db.blocks, root, newTip))
    requires var q := Path(db.blocks, root, newTip);
      joined == IndexJoined(db.blocks, left, q, fork + 1, |q|)
    ensures joined == HeightIndex(db.blocks, root, newTip)
  {
    hide *;
    MoveSetting(db, root, oldTip, newTip, fork);
    var p, q := Path(db.blocks, root, oldTip), Path(db.blocks, root, newTip);
    IndexJoinedAt(db.blocks, left, q, fork + 1, |q|);
    BranchesApart(db, root, oldTip, newTip, fork);
    var target := HeightIndex(db.blocks, root, newTip);
    forall n: nat
      ensures n in joined <==> n in target
      ensures n in joined ==> joined[n] == target[n]
    {
      HeightIndexAt(db.blocks, root, oldTip, n);
      HeightIndexAt(db.blocks, root, newTip, n);
      HeightMoved(p, q, fork, db.blocks, n, db.byNumber, left, joined);
    }
  }

  /** The two loops of the rewrite, from the paths that the walks collected. */
  method SwitchBranch(db: Store, oldPath: seq<Meta>, newPath: seq<Meta>,
                      ghost root: string, ghost oldTip: string, ghost newTip: string, ghost fork: nat)
    returns (out: Store)
    requires Linked(db, root) && oldTip in db.blocks && newTip in db.blocks && IndexedBut(db, root, oldTip, newTip)
    requires ForkPoint(Path(db.blocks, root, oldTip), Path(db.blocks, root, newTip), fork)
    requires WalkedDown(db.metas, Path(db.blocks, root, oldTip), fork, oldPath)
    requires WalkedDown(db.metas, Path(db.blocks, root, newTip), fork, newPath)
    ensures out == Rewritten(db, root, newTip)
  {
    ghost var p, q := Path(db.blocks, root, oldTip), Path(db.blocks, root, newTip);
    PathIsChained(db, root, oldTip);
    PathIsChained(db, root, newTip);
    var leftMetas, leftNumbers := LeaveBranch(db, oldPath, p, fork);
    var metas, byNumber := JoinBranch(db, leftMetas, leftNumbers, newPath, q, fork);
    FlagsMoved(db, root, oldTip, newTip, fork, leftMetas, metas);
    IndexMoved(db, root, oldTip, newTip, fork, leftNumbers, byNumber);
    out := db.(metas := metas, byNumber := byNumber);
  }

  /** The store whose index and flags describe `tip`. */
  ghost function Rewritten(db: Store, root: string, tip: string): Store
    requires Linked(db, root) && tip in db.blocks
  {
    db.(metas := Flagged(db.metas, Path(db.blocks, root, tip)), byNumber := HeightIndex(db.blocks, root, tip))
  }

  lemma FirstTipIndexed(db: Store, root: string, metas: map<string, Meta>, byNumber: map<nat, Block>)
    requires Linked(db, root) && db.byNumber == map[] && db.blocks.Keys == {root}
    requires metas == FlagsJoined(db.metas, db.metas, [root], 0, 1)
    requires byNumber == IndexJoined(db.blocks, db.byNumber, [root], 0, 1)
    ensures db.(metas := metas, byNumber := byNumber) == Rewritten(db, root, root)
  {
    PathIsChained(db, root, root);
    FlagsJoinedAt(db.metas, db.metas, [root], 0, 1);
    IndexJoinedAt(db.blocks, db.byNumber, [root], 0, 1);
    assert Path(db.blocks, root, root) == [root];
    assert byNumber == HeightIndex(db.blocks, root, root);
    assert metas == Flagged(db.metas, [root]);
  }

  /**
   Whatever branch the new tip is on, longer or shorter, the rewrite leaves the height index
   holding exactly the new tip's path and the canonical flags marking exactly that path.
   */
  method RewriteCanonicalTip(db: Store, oldTip: string, newTip: string, ghost root: string) returns (r: Result<Store>)
    requires Linked(db, root) && IndexedBut(db, root, oldTip, newTip)
    ensures newTip !in db.blocks ==> r.Err?
    ensures newTip in db.blocks ==> r == Ok(Rewritten(db, root, newTip))
  {
    if newTip == "" {
      return Err(InvalidBlock);
    }
    var paths; ghost var fork;
    paths, fork := ReorgPaths(db, oldTip, newTip, root);
    if paths.Err? {
      return Err(paths.error);
    }
    var (oldPath, newPath) := paths.value;
    if oldTip == "" {
      PathIsChained(db, root, newTip);
      assert newTip == root;
      var metas, byNumber := JoinBranch(db, db.metas, db.byNumber, newPath, [root], -1);
      FirstTipIndexed(db, root, metas, byNumber);
      r := Ok(db.(metas := metas, byNumber := byNumber));
    } else {
      var out := SwitchBranch(db, oldPath, newPath, root, oldTip, newTip, fork);
      r := Ok(out);
    }
  }
}
