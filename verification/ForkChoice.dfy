/** The orphan buffer: blocks that arrived before their parent. */
module Orphans {
  import opened Records
  import Text

  // ---------------------------------------------------------------- order of released children

  predicate Earlier(a: Block, b: Block) {
    if a.header.number == b.header.number then Text.Before(a.hash, b.hash)
    else a.header.number < b.header.number
  }

  /** The lower block first; at equal heights the one whose hash comes first in byte order. */
  ghost predicate ComesFirst(a: Block, b: Block) {
    || a.header.number < b.header.number
    || (a.header.number == b.header.number && Text.Precedes(a.hash, b.hash))
  }

  lemma EarlierComesFirst(a: Block, b: Block)
    ensures Earlier(a, b) <==> ComesFirst(a, b)
  {
    Text.BeforeIsByteOrder(a.hash, b.hash);
    hide Text.Before, Text.Precedes;
  }

  function InsertBlock(b: Block, bs: seq<Block>): seq<Block> {
    if bs == [] || !Earlier(bs[0], b) then [b] + bs else [bs[0]] + InsertBlock(b, bs[1..])
  }

  function SortBlocks(bs: seq<Block>): seq<Block> {
    if bs == [] then [] else InsertBlock(bs[0], SortBlocks(bs[1..]))
  }

  ghost predicate Sorted(bs: seq<Block>) {
    forall i, j :: 0 <= i < j < |bs| ==> !Earlier(bs[j], bs[i])
  }

  lemma EarlierIsStrictWeak(a: Block, b: Block, c: Block)
    ensures !Earlier(a, b) && !Earlier(b, c) ==> !Earlier(a, c)
    ensures Earlier(a, b) ==> !Earlier(b, a)
  {
    if Earlier(a, b) && Earlier(b, a) {
      Text.BeforeTransitive(a.hash, b.hash, a.hash);
      Text.BeforeIrreflexive(a.hash);
    }
    if !Earlier(a, b) && !Earlier(b, c) && Earlier(a, c) {
      if a.hash == b.hash || b.hash == c.hash {
      } else {
        Text.BeforeTotal(a.hash, b.hash);
        Text.BeforeTotal(b.hash, c.hash);
        Text.BeforeTransitive(c.hash, b.hash, a.hash);
        if a.hash == c.hash {
          Text.BeforeIrreflexive(a.hash);
        } else {
          Text.BeforeTotal(a.hash, c.hash);
        }
      }
    }
  }

  lemma {:induction false} InsertKeepsOrder(b: Block, bs: seq<Block>)
    requires Sorted(bs)
    ensures Sorted(InsertBlock(b, bs)) && multiset(InsertBlock(b, bs)) == multiset(bs) + multiset{b}
  {
    var r := InsertBlock(b, bs);
    if bs == [] {
    } else if !Earlier(bs[0], b) {
      forall j | 1 <= j < |r|
        ensures !Earlier(r[j], b)
      {
        EarlierIsStrictWeak(r[j], bs[0], b);
        assert r[j] == bs[j - 1];
      }
    } else {
      InsertKeepsOrder(b, bs[1..]);
      EarlierIsStrictWeak(bs[0], b, b);
      assert bs == [bs[0]] + bs[1..];
      forall j | 1 <= j < |r|
        ensures !Earlier(r[j], bs[0])
      {
        assert r[j] in multiset(InsertBlock(b, bs[1..]));
        assert r[j] == b || r[j] in bs[1..];
      }
    }
  }

  /** Sorting puts the blocks in height-then-hash order and neither adds nor loses one. */
  lemma {:induction false} SortBlocksSorts(bs: seq<Block>)
    ensures Sorted(SortBlocks(bs)) && multiset(SortBlocks(bs)) == multiset(bs)
  {
    if bs != [] {
      SortBlocksSorts(bs[1..]);
      InsertKeepsOrder(bs[0], SortBlocks(bs[1..]));
      assert bs == [bs[0]] + bs[1..];
    }
  }

  /** Of two blocks with different hashes one comes first. */
  lemma EarlierTotal(a: Block, b: Block)
    requires a.hash != b.hash
    ensures Earlier(a, b) <==> !Earlier(b, a)
  {
    Text.BeforeTotal(a.hash, b.hash);
  }

  // ---------------------------------------------------------------- a set of blocks in order

  ghost predicate IsFirst(s: set<Block>, b: Block) {
    b in s && forall x :: x in s ==> !Earlier(x, b)
  }

  lemma {:induction false} FirstExists(s: set<Block>)
    requires s != {}
    ensures exists b :: IsFirst(s, b)
  {
    hide Earlier;
    var c :| c in s;
    EarlierIsStrictWeak(c, c, c);
    var rest := s - {c};
    if rest == {} {
      assert s == {c};
      assert IsFirst(s, c);
    } else {
      FirstExists(rest);
      var d :| IsFirst(rest, d);
      EarlierIsStrictWeak(d, c, d);
      EarlierIsStrictWeak(c, d, c);
      if Earlier(c, d) {
        forall x | x in s
          ensures !Earlier(x, c)
        {
          EarlierIsStrictWeak(x, d, c);
        }
        assert IsFirst(s, c);
      } else {
        assert IsFirst(s, d);
      }
    }
  }

  /** The blocks of a set in height-then-hash order. */
  ghost function Ordered(s: set<Block>): (bs: seq<Block>)
    ensures |bs| == |s| && forall b :: b in bs <==> b in s
  {
    if s == {} then []
    else
      FirstExists(s);
      var b :| IsFirst(s, b);
      [b] + Ordered(s - {b})
  }

  ghost predicate HashesDiffer(s: set<Block>) {
    forall a, b :: a in s && b in s && a != b ==> a.hash != b.hash
  }

  lemma FirstOfSorted(bs: seq<Block>, s: set<Block>, c: Block)
    requires bs != [] && Sorted(bs) && HashesDiffer(s) && (forall b :: b in bs <==> b in s) && IsFirst(s, c)
    ensures bs[0] == c
  {
    hide Earlier;
    assert bs[0] in s;
    var j :| 0 <= j < |bs| && bs[j] == c;
    if bs[0] != c {
      EarlierTotal(c, bs[0]);
    }
  }

  lemma TailOfSorted(bs: seq<Block>, s: set<Block>)
    requires bs != [] && Sorted(bs) && Distinct(bs) && HashesDiffer(s) && forall b :: b in bs <==> b in s
    ensures Sorted(bs[1..]) && Distinct(bs[1..]) && HashesDiffer(s - {bs[0]})
    ensures forall b :: b in bs[1..] <==> b in s - {bs[0]}
  {
    hide Earlier, HashesDiffer;
    assert HashesDiffer(s - {bs[0]}) by {
      FewerDiffer(s, bs[0]);
    }
    assert bs == [bs[0]] + bs[1..];
  }

  lemma FewerDiffer(s: set<Block>, b: Block)
    requires HashesDiffer(s)
    ensures HashesDiffer(s - {b})
  {
  }

  lemma OrderedSplits(s: set<Block>)
    requires s != {}
    ensures Ordered(s) != [] && IsFirst(s, Ordered(s)[0]) && Ordered(s)[1..] == Ordered(s - {Ordered(s)[0]})
  {
    hide IsFirst;
  }

  /** With different hashes there is only one order. */
  lemma {:induction false} OrderIsUnique(bs: seq<Block>, s: set<Block>)
    requires Sorted(bs) && Distinct(bs) && HashesDiffer(s) && forall b :: b in bs <==> b in s
    ensures bs == Ordered(s)
  {
    hide *;
    if bs == [] {
      assert s == {};
      assert |Ordered(s)| == 0;
    } else {
      assert bs[0] in s;
      OrderedSplits(s);
      FirstOfSorted(bs, s, Ordered(s)[0]);
      TailOfSorted(bs, s);
      OrderIsUnique(bs[1..], s - {bs[0]});
      assert bs == [bs[0]] + bs[1..];
    }
  }

  // ---------------------------------------------------------------- the buffer

  datatype Decision = Import | Buffer | Ignore

  ghost predicate BufferValid(byHash: map<string, Block>, byParent: map<string, seq<string>>) {
    && (forall h :: h in byHash ==>
          && byHash[h].hash == h
          && byHash[h].header.parentHash in byParent
          && h in byParent[byHash[h].header.parentHash])
    && (forall p :: p in byParent ==> byParent[p] != [] && Distinct(byParent[p]))
    && (forall p, h :: p in byParent && h in byParent[p] ==> h in byHash && byHash[h].header.parentHash == p)
  }

  class ForkChoice {
    var bufferedByHash: map<string, Block>
    var bufferedByParent: map<string, seq<string>>

    ghost predicate Valid()
      reads this
    {
      BufferValid(bufferedByHash, bufferedByParent)
    }

    constructor ()
      ensures Valid() && bufferedByHash == map[]
    {
      bufferedByHash, bufferedByParent := map[], map[];
    }

    method Decide(block: Block, hasBlock: bool, hasParent: bool) returns (d: Decision)
      requires Valid()
      modifies this
      ensures Valid()
      ensures d == if hasBlock then Ignore else if block.header.number > 0 && !hasParent then Buffer else Import
      ensures bufferedByHash ==
        if d == Buffer && block.hash !in old(bufferedByHash) then old(bufferedByHash)[block.hash := block]
        else old(bufferedByHash)
    {
      if hasBlock {
        return Ignore;
      }
      if block.header.number > 0 && !hasParent {
        BufferBlock(block);
        return Buffer;
      }
      d := Import;
    }

    method BufferBlock(block: Block)
      requires Valid()
      modifies this
      ensures Valid()
      ensures bufferedByHash ==
        if block.hash in old(bufferedByHash) then old(bufferedByHash) else old(bufferedByHash)[block.hash := block]
    {
      if block.hash in bufferedByHash {
        return;
      }
      var parent := block.header.parentHash;
      var siblings := if parent in bufferedByParent then bufferedByParent[parent] else [];
      assert block.hash !in siblings;
      bufferedByHash := bufferedByHash[block.hash := block];
      bufferedByParent := bufferedByParent[parent := siblings + [block.hash]];
    }

    /** Releases exactly the buffered children of a block, in height-then-hash order. */
    method CanonicalImported(block: Block) returns (children: seq<Block>)
      requires Valid()
      modifies this
      ensures Valid()
      ensures children == Ordered(ChildrenOf(old(bufferedByHash), block.hash)) && LowestFirst(children)
      ensures bufferedByHash == Without(old(bufferedByHash), block.hash)
    {
      var hashes := if block.hash in bufferedByParent then bufferedByParent[block.hash] else [];
      ChildrenListed(bufferedByHash, bufferedByParent, hashes, block.hash);
      hide *;
      var taken, rest := TakeBuffered(bufferedByHash, hashes);
      ReleaseKeepsValid(bufferedByHash, bufferedByParent, rest, block.hash);
      bufferedByHash, bufferedByParent := rest, bufferedByParent - {block.hash};
      SortedSame(taken);
      children := SortBlocks(taken);
      NowValid();
      ReleasedOnce(old(bufferedByHash), bufferedByHash, children);
      ReleasedInOrder(old(bufferedByHash), bufferedByHash, block.hash, children);
      ParkedByHash(old(bufferedByHash), old(bufferedByParent));
      ChildrenDiffer(old(bufferedByHash), block.hash);
      OrderedLowestFirst(ChildrenOf(old(bufferedByHash), block.hash));
    }

    lemma NowValid()
      requires BufferValid(bufferedByHash, bufferedByParent)
      ensures Valid()
    {
    }
  }

  /** The parked children of a block. */
  ghost function ChildrenOf(parked: map<string, Block>, hash: string): set<Block> {
    set h | h in parked && parked[h].header.parentHash == hash :: parked[h]
  }

  /** What stays parked when a block's children leave. */
  ghost function Without(parked: map<string, Block>, hash: string): map<string, Block> {
    map h | h in parked && parked[h].header.parentHash != hash :: parked[h]
  }

  ghost predicate ByHash(parked: map<string, Block>) {
    forall h :: h in parked ==> parked[h].hash == h
  }

  /** The list goes up in height, and in byte order of the hashes at equal heights. */
  ghost predicate LowestFirst(bs: seq<Block>) {
    forall i, j :: 0 <= i < j < |bs| ==>
      || bs[i].header.number < bs[j].header.number
      || (bs[i].header.number == bs[j].header.number && Text.Precedes(bs[i].hash, bs[j].hash))
  }

  lemma {:induction false} OrderedIsSorted(s: set<Block>)
    requires HashesDiffer(s)
    ensures Sorted(Ordered(s))
  {
    hide Earlier, HashesDiffer, IsFirst;
    if s != {} {
      var rest := s - {Ordered(s)[0]};
      OrderedSplits(s);
      FewerDiffer(s, Ordered(s)[0]);
      OrderedIsSorted(rest);
      FirstIsFirst(s);
    }
  }

  lemma FirstIsFirst(s: set<Block>)
    requires s != {} && Sorted(Ordered(s)[1..]) && IsFirst(s, Ordered(s)[0])
    ensures Sorted(Ordered(s))
  {
    hide Earlier;
    var bs := Ordered(s);
    forall i, j | 0 <= i < j < |bs|
      ensures !Earlier(bs[j], bs[i])
    {
      if i == 0 {
        assert bs[j] in bs;
      } else {
        assert bs[i] == bs[1..][i - 1] && bs[j] == bs[1..][j - 1];
      }
    }
  }

  /** A set of blocks with different hashes is listed lowest first. */
  lemma OrderedLowestFirst(s: set<Block>)
    requires HashesDiffer(s)
    ensures LowestFirst(Ordered(s))
  {
    OrderedIsSorted(s);
    hide Earlier, HashesDiffer, Ordered, Text.Precedes;
    var bs := Ordered(s);
    OrderedDistinct(s);
    forall i, j | 0 <= i < j < |bs|
      ensures ComesFirst(bs[i], bs[j])
    {
      DifferAt(s, bs, i, j);
      EarlierTotal(bs[i], bs[j]);
      EarlierComesFirst(bs[i], bs[j]);
    }
  }

  lemma DifferAt(s: set<Block>, bs: seq<Block>, i: nat, j: nat)
    requires HashesDiffer(s) && (forall b :: b in bs ==> b in s) && Distinct(bs) && i < j < |bs|
    ensures bs[i].hash != bs[j].hash
  {
    assert bs[i] in bs && bs[j] in bs && bs[i] != bs[j];
  }

  lemma {:induction false} OrderedDistinct(s: set<Block>)
    ensures Distinct(Ordered(s)) && forall b :: b in Ordered(s) ==> b in s
  {
    hide IsFirst, Earlier;
    if s != {} {
      var bs := Ordered(s);
      OrderedSplits(s);
      OrderedDistinct(s - {bs[0]});
      forall i, j | 0 <= i < j < |bs|
        ensures bs[i] != bs[j]
      {
        assert bs[j] == bs[1..][j - 1] && bs[1..][j - 1] in bs[1..];
        if i > 0 {
          assert bs[i] == bs[1..][i - 1];
        }
      }
    }
  }

  lemma ChildrenDiffer(parked: map<string, Block>, hash: string)
    requires ByHash(parked)
    ensures HashesDiffer(ChildrenOf(parked, hash))
  {
  }

  lemma ReleasedInOrder(before: map<string, Block>, after: map<string, Block>, hash: string, released: seq<Block>)
    requires ByHash(before) && Sorted(released) && Distinct(HashList(released))
    requires forall b :: b in released <==> b.hash in before && b == before[b.hash] && b.header.parentHash == hash
    requires forall h :: h in after <==> h in before && before[h].header.parentHash != hash
    requires forall h :: h in after ==> after[h] == before[h]
    ensures released == Ordered(ChildrenOf(before, hash)) && after == Without(before, hash)
  {
    hide Sorted;
    forall i, j | 0 <= i < j < |released|
      ensures released[i] != released[j]
    {
      assert HashList(released)[i] != HashList(released)[j];
    }
    OrderIsUnique(released, ChildrenOf(before, hash));
  }

  lemma ChildrenGrow(parked: map<string, Block>, rest: map<string, Block>, h: string, hash: string)
    requires h in parked && rest == parked - {h}
    ensures ChildrenOf(parked, hash)
         == ChildrenOf(rest, hash) + if parked[h].header.parentHash == hash then {parked[h]} else {}
  {
    forall b
      ensures b in ChildrenOf(parked, hash)
         <==> b in ChildrenOf(rest, hash) || (b == parked[h] && b.header.parentHash == hash)
    {
      if b in ChildrenOf(parked, hash) {
        var k :| k in parked && parked[k].header.parentHash == hash && parked[k] == b;
        assert k == h || (k in rest && rest[k] == b);
      }
      if b in ChildrenOf(rest, hash) {
        var k :| k in rest && rest[k].header.parentHash == hash && rest[k] == b;
        assert parked[k] == b;
      }
    }
  }

  lemma WithoutGrows(parked: map<string, Block>, rest: map<string, Block>, h: string, hash: string)
    requires h in parked && rest == parked - {h}
    ensures Without(parked, hash).Keys
         == Without(rest, hash).Keys + (if parked[h].header.parentHash == hash then {} else {h})
    ensures h !in Without(rest, hash)
  {
  }

  lemma ChildHashes(parked: map<string, Block>, hash: string, h: string)
    requires ByHash(parked) && h !in parked
    ensures forall b :: b in ChildrenOf(parked, hash) ==> b.hash != h
  {
  }

  lemma ParkedByHash(byHash: map<string, Block>, byParent: map<string, seq<string>>)
    requires BufferValid(byHash, byParent)
    ensures ByHash(byHash)
  {
  }

  /** Releasing moves every child from the buffer to the list. */
  lemma {:induction false} ReleaseCounts(parked: map<string, Block>, hash: string)
    requires ByHash(parked)
    ensures |ChildrenOf(parked, hash)| + |Without(parked, hash)| == |parked|
    decreases |parked|
  {
    if parked == map[] {
      assert ChildrenOf(parked, hash) == {} && Without(parked, hash) == map[];
    } else {
      var h :| h in parked;
      var rest := parked - {h};
      assert rest.Keys == parked.Keys - {h};
      assert ByHash(rest) && parked[h].hash == h;
      hide *;
      ReleaseCounts(rest, hash);
      ChildrenGrow(parked, rest, h, hash);
      WithoutGrows(parked, rest, h, hash);
      ChildHashes(rest, hash, h);
      assert |Without(parked, hash)| == |Without(parked, hash).Keys|;
      assert |Without(rest, hash)| == |Without(rest, hash).Keys|;
    }
  }

  function HashList(bs: seq<Block>): seq<string> {
    seq(|bs|, i requires 0 <= i < |bs| => bs[i].hash)
  }

  /** As many blocks as there are missing hashes, each for one of them, are pairwise different. */
  lemma ReleasedOnce(before: map<string, Block>, after: map<string, Block>, released: seq<Block>)
    requires forall h :: h in after ==> h in before
    requires forall b :: b in released ==> b.hash in before && b.hash !in after
    requires forall h :: h in before && h !in after ==> before[h] in released && before[h].hash == h
    requires |released| + |after| == |before|
    ensures Distinct(HashList(released))
  {
    var hashes := HashList(released);
    var gone := before.Keys - after.Keys;
    assert |gone| == |before.Keys| - |after.Keys|;
    forall h
      ensures h in gone <==> h in hashes
    {
      if h in gone {
        var i :| 0 <= i < |released| && released[i] == before[h];
        assert hashes[i] == h;
      }
    }
    assert (set h | h in hashes) == gone;
    FullMeansDistinct(hashes);
  }

  lemma {:induction false} AtMostAsMany(hs: seq<string>)
    ensures |set h | h in hs| <= |hs|
  {
    if hs != [] {
      var init, last := hs[..|hs| - 1], hs[|hs| - 1];
      AtMostAsMany(init);
      assert (set h | h in hs) == (set h | h in init) + {last};
    }
  }

  lemma {:induction false} FullMeansDistinct(hs: seq<string>)
    requires |set h | h in hs| == |hs|
    ensures Distinct(hs)
  {
    if hs != [] {
      var init, last := hs[..|hs| - 1], hs[|hs| - 1];
      var whole, part := set h | h in hs, set h | h in init;
      assert hs == init + [last];
      assert whole == part + {last};
      AtMostAsMany(init);
      assert last !in part;
      FullMeansDistinct(init);
    }
  }

  /** A parent's list names exactly its buffered children. */
  lemma ChildrenListed(byHash: map<string, Block>, byParent: map<string, seq<string>>, hashes: seq<string>,
                       parent: string)
    requires BufferValid(byHash, byParent)
    requires hashes == if parent in byParent then byParent[parent] else []
    ensures Distinct(hashes) && Holds(byHash, hashes)
    ensures forall h :: h in hashes <==> h in byHash && byHash[h].header.parentHash == parent
  {
  }

  /** Dropping one parent's list together with its children keeps the two maps in step. */
  lemma ReleaseKeepsValid(byHash: map<string, Block>, byParent: map<string, seq<string>>, rest: map<string, Block>,
                          parent: string)
    requires BufferValid(byHash, byParent)
    requires forall h :: h in rest <==> h in byHash && byHash[h].header.parentHash != parent
    requires forall h :: h in rest ==> rest[h] == byHash[h]
    ensures BufferValid(rest, byParent - {parent})
  {
  }

  ghost predicate Holds(byHash: map<string, Block>, hashes: seq<string>) {
    forall h :: h in hashes ==> h in byHash && byHash[h].hash == h
  }

  /** The blocks found under a list of hashes, in that order. */
  ghost function Found(byHash: map<string, Block>, hashes: seq<string>): seq<Block>
    requires Holds(byHash, hashes)
  {
    if hashes == [] then []
    else Found(byHash, hashes[..|hashes| - 1]) + [byHash[hashes[|hashes| - 1]]]
  }

  lemma FoundStep(byHash: map<string, Block>, hashes: seq<string>, i: nat)
    requires Distinct(hashes) && Holds(byHash, hashes) && i < |hashes|
    ensures hashes[i] in byHash && hashes[i] !in hashes[..i]
    ensures hashes[..i + 1] == hashes[..i] + [hashes[i]]
    ensures Holds(byHash, hashes[..i]) && Holds(byHash, hashes[..i + 1])
    ensures Found(byHash, hashes[..i + 1]) == Found(byHash, hashes[..i]) + [byHash[hashes[i]]]
  {
    assert hashes[..i + 1][..i] == hashes[..i];
  }

  lemma {:induction false} FoundMembers(byHash: map<string, Block>, hashes: seq<string>)
    requires Holds(byHash, hashes)
    ensures |Found(byHash, hashes)| == |hashes|
    ensures forall b :: b in Found(byHash, hashes) <==> b.hash in hashes && b == byHash[b.hash]
  {
    if hashes != [] {
      var init, last := hashes[..|hashes| - 1], hashes[|hashes| - 1];
      FoundMembers(byHash, init);
      assert hashes == init + [last];
    }
  }

  /** The loop that moves buffered blocks out by hash. */
  method TakeBuffered(byHash: map<string, Block>, hashes: seq<string>)
    returns (children: seq<Block>, rest: map<string, Block>)
    requires Distinct(hashes) && Holds(byHash, hashes)
    ensures |children| == |hashes|
    ensures forall b :: b in children <==> b.hash in hashes && b == byHash[b.hash]
    ensures forall h :: h in rest <==> h in byHash && h !in hashes
    ensures forall h :: h in rest ==> rest[h] == byHash[h]
    ensures |children| + |rest| == |byHash|
  {
    children, rest := [], byHash;
    assert Holds(byHash, hashes[..0]) && Found(byHash, hashes[..0]) == [];
    hide *;
    for i := 0 to |hashes|
      invariant Holds(byHash, hashes[..i]) && children == Found(byHash, hashes[..i])
      invariant forall h :: h in rest <==> h in byHash && h !in hashes[..i]
      invariant forall h :: h in rest ==> rest[h] == byHash[h]
      invariant i + |rest| == |byHash|
    {
      var hash := hashes[i];
      FoundStep(byHash, hashes, i);
      if hash in rest {
        children := children + [rest[hash]];
        rest := rest - {hash};
      }
    }
    assert hashes[..|hashes|] == hashes;
    FoundMembers(byHash, hashes);
  }

  lemma SortedSame(bs: seq<Block>)
    ensures Sorted(SortBlocks(bs)) && |SortBlocks(bs)| == |bs|
    ensures forall b :: b in SortBlocks(bs) <==> b in bs
  {
    SortBlocksSorts(bs);
    assert |SortBlocks(bs)| == |multiset(SortBlocks(bs))| == |multiset(bs)|;
    forall b: Block
      ensures b in SortBlocks(bs) <==> b in bs
    {
      assert b in SortBlocks(bs) <==> b in multiset(SortBlocks(bs));
      assert b in bs <==> b in multiset(bs);
    }
  }
}
