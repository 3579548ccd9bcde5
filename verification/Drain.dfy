/** Draining the search-task pool by value while keeping each sender's nonce order. */
module Draining {
  import opened Records
  import opened Pools
  import Text

  // ---------------------------------------------------------------- the reference definition

  function ValueOf(e: Entry): int {
    match e.tx.value
    case Plain(n) => n
    case Padded(n) => n
    case Malformed => 0
  }

  /** Higher value, then earlier, then lower hash. */
  predicate Better(a: Entry, b: Entry) {
    if ValueOf(a) != ValueOf(b) then ValueOf(a) > ValueOf(b)
    else if a.tx.timestamp != b.tx.timestamp then a.tx.timestamp < b.tx.timestamp
    else Text.Before(a.tx.hash, b.tx.hash)
  }

  /** The value of the transaction, 0 if it does not parse. */
  function Worth(e: Entry): int {
    if e.tx.value == Malformed then 0 else e.tx.value.n
  }

  /** More value first, then the earlier one, then byte order of the hashes. */
  ghost predicate PickedBefore(a: Entry, b: Entry) {
    || Worth(a) > Worth(b)
    || (Worth(a) == Worth(b) && a.tx.timestamp < b.tx.timestamp)
    || (Worth(a) == Worth(b) && a.tx.timestamp == b.tx.timestamp && Text.Precedes(a.tx.hash, b.tx.hash))
  }

  lemma BetterIs(a: Entry, b: Entry)
    ensures Better(a, b) <==> PickedBefore(a, b)
  {
    Text.BeforeIsByteOrder(a.tx.hash, b.tx.hash);
    hide Text.Before, Text.Precedes;
  }

  lemma BetterIsStrictTotal(a: Entry, b: Entry, c: Entry)
    ensures Better(a, b) && Better(b, c) ==> Better(a, c)
    ensures a.tx.hash != b.tx.hash ==> (Better(a, b) <==> !Better(b, a))
    ensures !Better(a, a)
  {
    Text.BeforeIrreflexive(a.tx.hash);
    if a.tx.hash != b.tx.hash {
      Text.BeforeTotal(a.tx.hash, b.tx.hash);
    }
    if Text.Before(a.tx.hash, b.tx.hash) && Text.Before(b.tx.hash, c.tx.hash) {
      Text.BeforeTransitive(a.tx.hash, b.tx.hash, c.tx.hash);
    }
  }

  /** The lowest-nonce entry of its sender. */
  ghost predicate IsHead(pool: set<Entry>, e: Entry) {
    e in pool && forall f :: f in pool && f.tx.from == e.tx.from && f != e ==> e.tx.nonce < f.tx.nonce
  }

  /** The best of all sender heads. */
  ghost predicate IsBest(pool: set<Entry>, e: Entry) {
    IsHead(pool, e) && forall f :: IsHead(pool, f) && f != e ==> Better(e, f)
  }

  /** Each pick is the best among the heads of what is left. */
  ghost predicate Greedy(pool: set<Entry>, picks: seq<Entry>)
    decreases |picks|
  {
    picks == [] || (IsBest(pool, picks[0]) && Greedy(pool - {picks[0]}, picks[1..]))
  }

  ghost function SetOf(p: seq<Entry>): set<Entry> {
    set e | e in p
  }

  // ---------------------------------------------------------------- what the definition gives

  lemma {:induction false} GreedyMembers(pool: set<Entry>, picks: seq<Entry>)
    requires Greedy(pool, picks)
    ensures SetOf(picks) <= pool
    ensures forall i, j :: 0 <= i < j < |picks| ==> picks[i] != picks[j]
    decreases |picks|
  {
    if picks != [] {
      GreedyMembers(pool - {picks[0]}, picks[1..]);
      assert picks == [picks[0]] + picks[1..];
      forall j | 1 <= j < |picks|
        ensures picks[j] != picks[0]
      {
        assert picks[j] in SetOf(picks[1..]);
      }
    }
  }

  /** A sender's picks are its lowest nonces, in nonce order: whatever precedes a pick was picked before it. */
  lemma {:induction false} GreedyTakesPrefixes(pool: set<Entry>, picks: seq<Entry>, i: nat, f: Entry)
    requires Greedy(pool, picks) && i < |picks|
    requires f in pool && f.tx.from == picks[i].tx.from && f.tx.nonce < picks[i].tx.nonce
    ensures exists j :: 0 <= j < i && picks[j] == f
    decreases |picks|
  {
    if i > 0 && f != picks[0] {
      GreedyTakesPrefixes(pool - {picks[0]}, picks[1..], i - 1, f);
      var j :| 0 <= j < i - 1 && picks[1..][j] == f;
      assert picks[j + 1] == f;
    }
  }

  /** Nothing was left behind that was a head and beat a pick. */
  lemma {:induction false} GreedyPicksBest(pool: set<Entry>, picks: seq<Entry>, i: nat)
    requires Greedy(pool, picks) && i < |picks|
    ensures IsBest(pool - SetOf(picks[..i]), picks[i])
    decreases |picks|
  {
    if i == 0 {
      assert pool - SetOf(picks[..0]) == pool;
    } else {
      GreedyPicksBest(pool - {picks[0]}, picks[1..], i - 1);
      assert picks[..i] == [picks[0]] + picks[1..][..i - 1];
      assert pool - SetOf(picks[..i]) == pool - {picks[0]} - SetOf(picks[1..][..i - 1]);
    }
  }

  /**
   Each pick has the lowest nonce of its sender among what is left, and comes before every other entry
   of which that is true.
   */
  ghost predicate PicksInOrder(pool: set<Entry>, picks: seq<Entry>) {
    forall i :: 0 <= i < |picks| ==> PickedRight(pool - SetOf(picks[..i]), picks[i])
  }

  ghost predicate LowestNonce(left: set<Entry>, e: Entry) {
    e in left && forall f :: f in left && f != e && f.tx.from == e.tx.from ==> e.tx.nonce < f.tx.nonce
  }

  ghost predicate PickedRight(left: set<Entry>, e: Entry) {
    LowestNonce(left, e) && forall f :: LowestNonce(left, f) && f != e ==> PickedBefore(e, f)
  }

  lemma BestIsRight(left: set<Entry>, e: Entry)
    ensures IsBest(left, e) <==> PickedRight(left, e)
  {
    forall f
      ensures IsHead(left, f) <==> LowestNonce(left, f)
    {
    }
    hide IsHead, LowestNonce, Better, PickedBefore;
    forall f
      ensures Better(e, f) <==> PickedBefore(e, f)
    {
      BetterIs(e, f);
    }
  }

  lemma GreedyInOrder(pool: set<Entry>, picks: seq<Entry>)
    requires Greedy(pool, picks)
    ensures PicksInOrder(pool, picks)
  {
    hide Greedy, IsBest, PickedRight;
    forall i | 0 <= i < |picks|
      ensures PickedRight(pool - SetOf(picks[..i]), picks[i])
    {
      GreedyPicksBest(pool, picks, i);
      BestIsRight(pool - SetOf(picks[..i]), picks[i]);
    }
  }

  lemma {:induction false} GreedyAppend(pool: set<Entry>, picks: seq<Entry>, e: Entry)
    requires Greedy(pool, picks) && IsBest(pool - SetOf(picks), e)
    ensures Greedy(pool, picks + [e])
    decreases |picks|
  {
    hide IsBest;
    if picks == [] {
      assert pool - SetOf(picks) == pool;
      assert (picks + [e])[1..] == [];
    } else {
      assert picks == [picks[0]] + picks[1..];
      assert pool - SetOf(picks) == pool - {picks[0]} - SetOf(picks[1..]);
      GreedyAppend(pool - {picks[0]}, picks[1..], e);
      assert (picks + [e])[1..] == picks[1..] + [e];
    }
  }

  /** The picks are determined: two greedy runs of the same length are equal. */
  lemma {:induction false} GreedyUnique(pool: set<Entry>, a: seq<Entry>, b: seq<Entry>)
    requires Greedy(pool, a) && Greedy(pool, b) && |a| == |b|
    requires forall e, f :: e in pool && f in pool && e != f ==> e.tx.hash != f.tx.hash
    ensures a == b
    decreases |a|
  {
    if a != [] {
      assert IsHead(pool, a[0]) && IsHead(pool, b[0]);
      if a[0] != b[0] {
        BetterIsStrictTotal(a[0], b[0], a[0]);
      } else {
        GreedyUnique(pool - {a[0]}, a[1..], b[1..]);
        assert a == [a[0]] + a[1..] && b == [b[0]] + b[1..];
      }
    }
  }

  // ---------------------------------------------------------------- sender queues

  ghost predicate NonceOrdered(q: seq<Entry>) {
    forall i, j :: 0 <= i < j < |q| ==> q[i].tx.nonce < q[j].tx.nonce
  }

  ghost predicate NoncesDiffer(q: seq<Entry>) {
    forall i, j :: 0 <= i < j < |q| ==> q[i].tx.nonce != q[j].tx.nonce
  }

  /** `q` holds exactly a sender's entries of `pool`, lowest nonce first. */
  ghost predicate IsQueue(q: seq<Entry>, pool: set<Entry>, sender: string) {
    && (forall e :: e in q <==> e in pool && e.tx.from == sender)
    && NonceOrdered(q)
  }

  /** Nonce, then time, then hash. */
  predicate QueueBefore(a: Entry, b: Entry) {
    if a.tx.nonce != b.tx.nonce then a.tx.nonce < b.tx.nonce
    else if a.tx.timestamp != b.tx.timestamp then a.tx.timestamp < b.tx.timestamp
    else Text.Before(a.tx.hash, b.tx.hash)
  }

  function InsertQueue(e: Entry, q: seq<Entry>): seq<Entry> {
    if q == [] || !QueueBefore(q[0], e) then [e] + q else [q[0]] + InsertQueue(e, q[1..])
  }

  function SortQueue(q: seq<Entry>): seq<Entry> {
    if q == [] then [] else InsertQueue(q[0], SortQueue(q[1..]))
  }

  lemma {:induction false} InsertQueueSorts(e: Entry, q: seq<Entry>)
    requires NonceOrdered(q) && forall f :: f in q ==> f.tx.nonce != e.tx.nonce
    ensures NonceOrdered(InsertQueue(e, q))
    ensures forall f :: f in InsertQueue(e, q) <==> f == e || f in q
  {
    hide Text.Before;
    if q != [] {
      assert q == [q[0]] + q[1..];
      if QueueBefore(q[0], e) {
        assert NonceOrdered(q[1..]);
        InsertQueueSorts(e, q[1..]);
        var r := InsertQueue(e, q[1..]);
        forall j | 0 <= j < |r|
          ensures q[0].tx.nonce < r[j].tx.nonce
        {
          assert r[j] == e || r[j] in q[1..];
        }
      }
    }
  }

  /** Sorting entries with different nonces orders them strictly and keeps them all. */
  lemma {:induction false} SortQueueSorts(q: seq<Entry>)
    requires NoncesDiffer(q)
    ensures NonceOrdered(SortQueue(q))
    ensures forall f :: f in SortQueue(q) <==> f in q
  {
    hide QueueBefore;
    if q != [] {
      assert q == [q[0]] + q[1..];
      assert NoncesDiffer(q[1..]);
      SortQueueSorts(q[1..]);
      InsertQueueSorts(q[0], SortQueue(q[1..]));
    }
  }

  // ---------------------------------------------------------------- the selection state

  /** Every sender with entries left has its queue, and `senders` lists the senders once each. */
  ghost predicate Queued(senders: seq<string>, bySender: map<string, seq<Entry>>, left: set<Entry>) {
    && (forall s :: s in senders <==> s in bySender)
    && (forall s :: s in bySender ==> IsQueue(bySender[s], left, s))
    && (forall e :: e in left ==> e.tx.from in bySender)
  }

  ghost predicate Distinguished(pool: set<Entry>) {
    forall e, f :: e in pool && f in pool && e != f ==> e.tx.hash != f.tx.hash && !SameSlot(e.tx, f.tx)
  }

  /** Heads of the queues are exactly the heads of what is left. */
  lemma HeadsOfQueues(senders: seq<string>, bySender: map<string, seq<Entry>>, left: set<Entry>, e: Entry)
    requires Queued(senders, bySender, left)
    ensures IsHead(left, e) <==> e.tx.from in bySender && bySender[e.tx.from] != [] && e == bySender[e.tx.from][0]
  {
    if e.tx.from in bySender && bySender[e.tx.from] != [] {
      var q := bySender[e.tx.from];
      assert IsQueue(q, left, e.tx.from);
      assert q[0] in q;
      if e in left {
        var i :| 0 <= i < |q| && q[i] == e;
      }
      if e == q[0] {
        forall f | f in left && f.tx.from == e.tx.from && f != e
          ensures e.tx.nonce < f.tx.nonce
        {
          var i :| 0 <= i < |q| && q[i] == f;
        }
      }
    }
  }

  /** A queue head that no other queue head beats is the best pick. */
  lemma BestHeadIsBest(senders: seq<string>, bySender: map<string, seq<Entry>>, left: set<Entry>, sender: string)
    requires Queued(senders, bySender, left) && Distinguished(left) && sender in bySender && bySender[sender] != []
    requires forall s :: s in bySender && bySender[s] != [] ==> !Better(bySender[s][0], bySender[sender][0])
    ensures IsBest(left, bySender[sender][0])
  {
    hide Better, Distinguished;
    var e := bySender[sender][0];
    assert IsQueue(bySender[sender], left, sender);
    assert e in bySender[sender];
    HeadsOfQueues(senders, bySender, left, e);
    forall f | IsHead(left, f) && f != e
      ensures Better(e, f)
    {
      HeadsOfQueues(senders, bySender, left, f);
      HashesDiffer(left, e, f);
      BetterIsStrictTotal(e, f, e);
    }
  }

  lemma HashesDiffer(pool: set<Entry>, e: Entry, f: Entry)
    requires Distinguished(pool) && e in pool && f in pool && e != f
    ensures e.tx.hash != f.tx.hash
  {
  }

  /** Taking the head of one queue. */
  lemma TakeHead(senders: seq<string>, bySender: map<string, seq<Entry>>, left: set<Entry>, sender: string)
    requires Queued(senders, bySender, left) && sender in bySender && bySender[sender] != []
    ensures Queued(senders, bySender[sender := bySender[sender][1..]], left - {bySender[sender][0]})
  {
    var q := bySender[sender];
    var after := bySender[sender := q[1..]];
    assert IsQueue(q, left, sender);
    assert q == [q[0]] + q[1..];
    forall s | s in after
      ensures IsQueue(after[s], left - {q[0]}, s)
    {
      assert IsQueue(bySender[s], left, s);
    }
  }

  // ---------------------------------------------------------------- the loops

  /** The scan over the sender heads: keeps the best so far. */
  method BestSender(senders: seq<string>, bySender: map<string, seq<Entry>>) returns (best: int)
    requires forall s :: s in senders ==> s in bySender
    ensures -1 <= best < |senders|
    ensures best < 0 ==> forall s :: s in senders ==> bySender[s] == []
    ensures best >= 0 ==>
      && bySender[senders[best]] != []
      && forall s :: s in senders && bySender[s] != [] ==> !Better(bySender[s][0], bySender[senders[best]][0])
  {
    best := -1;
    for i := 0 to |senders|
      invariant -1 <= best < i
      invariant best < 0 ==> forall j :: 0 <= j < i ==> bySender[senders[j]] == []
      invariant best >= 0 ==>
        && bySender[senders[best]] != []
        && forall j :: 0 <= j < i && bySender[senders[j]] != [] ==>
          !Better(bySender[senders[j]][0], bySender[senders[best]][0])
    {
      var queue := bySender[senders[i]];
      if queue == [] {
        continue;
      }
      if best < 0 {
        BetterIsStrictTotal(queue[0], queue[0], queue[0]);
        best := i;
        continue;
      }
      var bestTask, candidate := bySender[senders[best]][0], queue[0];
      if || ValueOf(candidate) > ValueOf(bestTask)
         || (ValueOf(candidate) == ValueOf(bestTask)
             && (candidate.tx.timestamp < bestTask.tx.timestamp
                 || (candidate.tx.timestamp == bestTask.tx.timestamp
                     && Text.Before(candidate.tx.hash, bestTask.tx.hash)))) {
        assert Better(candidate, bestTask);
        forall j | 0 <= j < i && bySender[senders[j]] != []
          ensures !Better(bySender[senders[j]][0], candidate)
        {
          NotBetterChain(bySender[senders[j]][0], bestTask, candidate);
        }
        BetterIsStrictTotal(candidate, candidate, candidate);
        best := i;
      }
    }
  }

  /** What does not beat the old best does not beat something better. */
  lemma NotBetterChain(x: Entry, best: Entry, better: Entry)
    requires !Better(x, best) && Better(better, best)
    ensures !Better(x, better)
  {
    if Better(x, better) {
      BetterIsStrictTotal(x, better, best);
    }
  }

  /** Groups the pending entries by sender, in pool order. */
  method GroupBySender(pending: seq<Entry>) returns (senders: seq<string>, bySender: map<string, seq<Entry>>)
    ensures Distinct(senders) && forall s :: s in senders <==> s in bySender
    ensures forall s :: QueueOf(bySender, s) == OfSender(pending, s)
    ensures forall e :: e in pending ==> e.tx.from in bySender
  {
    hide OfSender;
    senders, bySender := [], map[];
    OfNobody();
    assert Distinct(senders);
    for i := 0 to |pending|
      invariant Distinct(senders) && forall s :: s in senders <==> s in bySender
      invariant forall s :: QueueOf(bySender, s) == OfSender(pending[..i], s)
      invariant forall j :: 0 <= j < i ==> pending[j].tx.from in bySender
    {
      var task := pending[i];
      var sender := task.tx.from;
      OfSenderStep(pending, i);
      var queue := QueueOf(bySender, sender);
      if sender !in bySender {
        senders := senders + [sender];
      }
      ghost var before := bySender;
      bySender := bySender[sender := queue + [task]];
      forall s: string
        ensures QueueOf(bySender, s) == OfSender(pending[..i + 1], s)
      {
        assert QueueOf(before, s) == OfSender(pending[..i], s);
      }
    }
    assert pending[..|pending|] == pending;
  }

  function QueueOf(bySender: map<string, seq<Entry>>, sender: string): seq<Entry> {
    if sender in bySender then bySender[sender] else []
  }

  lemma OfNobody()
    ensures forall s :: OfSender([], s) == []
  {
  }

  lemma OfSenderStep(p: seq<Entry>, i: nat)
    requires i < |p|
    ensures forall s ::
      OfSender(p[..i + 1], s) == if p[i].tx.from == s then OfSender(p[..i], s) + [p[i]] else OfSender(p[..i], s)
  {
    assert p[..i + 1][..i] == p[..i];
  }

  function OfSender(p: seq<Entry>, sender: string): seq<Entry> {
    if p == [] then []
    else OfSender(p[..|p| - 1], sender) + if p[|p| - 1].tx.from == sender then [p[|p| - 1]] else []
  }

  lemma {:induction false} OfSenderMembers(p: seq<Entry>, sender: string)
    ensures forall e :: e in OfSender(p, sender) <==> e in p && e.tx.from == sender
    ensures Unique(p) ==> NoncesDiffer(OfSender(p, sender))
    decreases |p|
  {
    if p != [] {
      var init, last := p[..|p| - 1], p[|p| - 1];
      assert p == init + [last];
      OfSenderMembers(init, sender);
      if Unique(p) && last.tx.from == sender {
        var q := OfSender(init, sender);
        hide OfSender;
        forall i | 0 <= i < |q|
          ensures q[i].tx.nonce != last.tx.nonce
        {
          assert q[i] in q;
          var j :| 0 <= j < |init| && init[j] == q[i];
          assert p[j] == q[i];
        }
      }
    }
  }

  /** Sorts every sender's queue. */
  method SortQueues(senders: seq<string>, grouped: map<string, seq<Entry>>) returns (bySender: map<string, seq<Entry>>)
    requires Distinct(senders) && forall s :: s in senders <==> s in grouped
    ensures bySender == map s | s in grouped :: SortQueue(grouped[s])
  {
    hide SortQueue;
    bySender := grouped;
    for i := 0 to |senders|
      invariant bySender.Keys == grouped.Keys
      invariant forall s :: s in grouped ==>
        bySender[s] == if s in senders[..i] then SortQueue(grouped[s]) else grouped[s]
    {
      var sender := senders[i];
      assert sender !in senders[..i];
      assert senders[..i + 1] == senders[..i] + [sender];
      bySender := bySender[sender := SortQueue(bySender[sender])];
    }
    assert senders[..|senders|] == senders;
  }

  lemma UniqueIsDistinguished(p: seq<Entry>)
    requires Unique(p)
    ensures Distinguished(SetOf(p))
  {
  }

  /** Grouping and sorting give every sender its queue. */
  lemma GroupedIsQueued(pending: seq<Entry>, senders: seq<string>, grouped: map<string, seq<Entry>>,
                        bySender: map<string, seq<Entry>>)
    requires Unique(pending) && forall s :: s in senders <==> s in grouped
    requires forall s :: QueueOf(grouped, s) == OfSender(pending, s)
    requires forall e :: e in pending ==> e.tx.from in grouped
    requires bySender == map s | s in grouped :: SortQueue(grouped[s])
    ensures Queued(senders, bySender, SetOf(pending))
  {
    hide Unique, SortQueue, OfSender;
    forall s | s in bySender
      ensures IsQueue(bySender[s], SetOf(pending), s)
    {
      OfSenderMembers(pending, s);
      assert grouped[s] == QueueOf(grouped, s);
      SortQueueSorts(grouped[s]);
    }
  }

  lemma SomeQueueLeft(senders: seq<string>, bySender: map<string, seq<Entry>>, left: set<Entry>)
    requires Queued(senders, bySender, left) && left != {}
    ensures exists s :: s in senders && bySender[s] != []
  {
    var e :| e in left;
    assert e.tx.from in bySender && IsQueue(bySender[e.tx.from], left, e.tx.from);
    assert e in bySender[e.tx.from];
    assert e.tx.from in senders;
  }

  lemma {:induction false} SetOfUnique(p: seq<Entry>)
    requires forall i, j :: 0 <= i < j < |p| ==> p[i] != p[j]
    ensures |SetOf(p)| == |p| && multiset(p) == multiset(SetOf(p))
  {
    if p != [] {
      var init, last := p[..|p| - 1], p[|p| - 1];
      assert p == init + [last];
      SetOfUnique(init);
      assert SetOf(p) == SetOf(init) + {last} && last !in SetOf(init);
    }
  }

  /** The selection loop. */
  method SelectHighest(pending: seq<Entry>, limit: nat) returns (selected: seq<Entry>)
    requires Unique(pending) && limit <= |pending|
    ensures Greedy(SetOf(pending), selected) && |selected| == limit
  {
    hide Queued, Distinguished, Greedy, Unique, IsBest, Better, SetOf, OfSender, QueueOf, SortQueue;
    var senders, grouped := GroupBySender(pending);
    var bySender := SortQueues(senders, grouped);
    GroupedIsQueued(pending, senders, grouped, bySender);
    ghost var pool := SetOf(pending);
    ghost var left := pool;
    UniqueMeansDistinct(pending);
    SetOfUnique(pending);
    UniqueIsDistinguished(pending);
    selected := [];
    GreedyNone(pool);
    while |selected| < limit
      invariant |selected| <= limit
      invariant Queued(senders, bySender, left) && Distinguished(left)
      invariant left == pool - SetOf(selected) && |left| + |selected| == |pending|
      invariant Greedy(pool, selected)
      decreases limit - |selected|
    {
      QueuedKeys(senders, bySender, left);
      SomeQueueLeft(senders, bySender, left);
      var best := BestSender(senders, bySender);
      var sender := senders[best];
      var task := bySender[sender][0];
      BestHeadIsBest(senders, bySender, left, sender);
      TakeHead(senders, bySender, left, sender);
      BestIsLeft(left, task);
      GreedyAppend(pool, selected, task);
      DistinguishedLess(left, task);
      SetOfAppend(selected, task);
      bySender := bySender[sender := bySender[sender][1..]];
      selected := selected + [task];
      left := left - {task};
    }
  }

  lemma SetOfAppend(p: seq<Entry>, e: Entry)
    ensures SetOf(p + [e]) == SetOf(p) + {e}
  {
  }

  lemma GreedyNone(pool: set<Entry>)
    ensures Greedy(pool, []) && SetOf([]) == {}
  {
  }

  lemma QueuedKeys(senders: seq<string>, bySender: map<string, seq<Entry>>, left: set<Entry>)
    requires Queued(senders, bySender, left)
    ensures forall s :: s in senders <==> s in bySender
  {
  }

  lemma BestIsLeft(left: set<Entry>, e: Entry)
    requires IsBest(left, e)
    ensures e in left
  {
  }

  lemma DistinguishedLess(left: set<Entry>, e: Entry)
    requires Distinguished(left)
    ensures Distinguished(left - {e})
  {
  }

  lemma UniqueMeansDistinct(p: seq<Entry>)
    requires Unique(p)
    ensures forall i, j :: 0 <= i < j < |p| ==> p[i] != p[j]
  {
  }

  /** The entries whose hash was not selected, in pool order. */
  function Without(p: seq<Entry>, hashes: set<string>): seq<Entry> {
    if p == [] then []
    else Without(p[..|p| - 1], hashes) + if p[|p| - 1].tx.hash in hashes then [] else [p[|p| - 1]]
  }

  lemma {:induction false} WithoutKeeps(p: seq<Entry>, hashes: set<string>)
    ensures Thinned(Without(p, hashes), p)
    ensures forall e :: e in Without(p, hashes) <==> e in p && e.tx.hash !in hashes
    decreases |p|
  {
    if p != [] {
      var init, last := p[..|p| - 1], p[|p| - 1];
      assert p == init + [last];
      WithoutKeeps(init, hashes);
      var q := Without(p, hashes);
      if last.tx.hash in hashes {
        assert q == Without(init, hashes);
      } else {
        assert q[..|q| - 1] == Without(init, hashes);
      }
    }
  }

  ghost function HashesOf(p: seq<Entry>): set<string> {
    set e | e in p :: e.tx.hash
  }

  /** What is not selected remains. */
  lemma RestMembers(p: seq<Entry>, selected: seq<Entry>)
    requires Unique(p) && Greedy(SetOf(p), selected)
    ensures forall e :: e in Without(p, HashesOf(selected)) <==> e in p && e !in selected
  {
    WithoutKeeps(p, HashesOf(selected));
    GreedyMembers(SetOf(p), selected);
    UniqueIsDistinguished(p);
    hide Thinned, Greedy, Without, Unique;
    forall e: Entry | e in p && e !in selected
      ensures e.tx.hash !in HashesOf(selected)
    {
      forall f | f in selected
        ensures f.tx.hash != e.tx.hash
      {
        assert f in SetOf(selected);
        assert e in SetOf(p) && f in SetOf(p);
      }
    }
  }

  lemma PartsMakeWhole(p: seq<Entry>, a: seq<Entry>, b: seq<Entry>)
    requires |SetOf(p)| == |p| && multiset(p) == multiset(SetOf(p))
    requires multiset(a) == multiset(SetOf(a)) && multiset(b) == multiset(SetOf(b))
    requires SetOf(p) == SetOf(a) + SetOf(b) && SetOf(a) !! SetOf(b)
    ensures multiset(a) + multiset(b) == multiset(p)
  {
    hide SetOf;
  }

  /** Selection and remainder split the pool exactly. */
  lemma SplitIsExact(p: seq<Entry>, selected: seq<Entry>)
    requires Unique(p) && Greedy(SetOf(p), selected)
    ensures var rest := Without(p, HashesOf(selected));
      Thinned(rest, p) && multiset(selected) + multiset(rest) == multiset(p)
  {
    hide Unique, Thinned, Greedy, Without, HashesOf;
    var rest := Without(p, HashesOf(selected));
    WithoutKeeps(p, HashesOf(selected));
    RestMembers(p, selected);
    GreedyMembers(SetOf(p), selected);
    ThinnedMembers(rest, p);
    UniqueMeansDistinct(p);
    UniqueMeansDistinct(rest);
    SetOfUnique(p);
    SetOfUnique(rest);
    SetOfUnique(selected);
    SetsSplit(p, selected, rest);
    PartsMakeWhole(p, selected, rest);
  }

  lemma SetsSplit(p: seq<Entry>, a: seq<Entry>, b: seq<Entry>)
    requires SetOf(a) <= SetOf(p) && forall e :: e in b <==> e in p && e !in a
    ensures SetOf(p) == SetOf(a) + SetOf(b) && SetOf(a) !! SetOf(b)
  {
    forall e: Entry
      ensures e in SetOf(p) <==> e in SetOf(a) + SetOf(b)
    {
      if e in a {
        assert e in SetOf(a);
      }
    }
  }

  /**
   Drains the most valuable tasks: the drained and the remaining tasks are exactly the
   pending ones, each pick is the best among the sender heads left, and the number drained
   is the limit, or everything when there is no limit or less is pending.
   */
  method DrainHighestValue(pool: Pool, limit: int) returns (out: seq<Entry>)
    requires pool.Valid()
    modifies pool
    ensures pool.Valid()
    ensures |out| == if limit <= 0 || limit > |old(pool.pending)| then |old(pool.pending)| else limit
    ensures Greedy(SetOf(old(pool.pending)), out) && PicksInOrder(SetOf(old(pool.pending)), out)
    ensures pool.pending == Without(old(pool.pending), HashesOf(out))
    ensures multiset(out) + multiset(pool.pending) == multiset(old(pool.pending))
  {
    hide Indexes, Greedy, Unique, WithinLimits, Thinned, Without, PicksInOrder;
    var n := if limit <= 0 || limit > |pool.pending| then |pool.pending| else limit;
    out := SelectHighest(pool.pending, n);
    SplitIsExact(pool.pending, out);
    GreedyInOrder(SetOf(pool.pending), out);
    var selectedHashes := set e | e in out :: e.tx.hash;
    var remaining := DropSelected(pool.pending, selectedHashes);
    ThinnedKeepsInv(remaining, pool.pending, pool.limit, pool.senderLimit);
    pool.pending := remaining;
    pool.RebuildIndices();
  }

  method DropSelected(pending: seq<Entry>, hashes: set<string>) returns (remaining: seq<Entry>)
    ensures remaining == Without(pending, hashes)
  {
    remaining := [];
    for i := 0 to |pending|
      invariant remaining == Without(pending[..i], hashes)
    {
      assert pending[..i + 1][..i] == pending[..i];
      if pending[i].tx.hash !in hashes {
        remaining := remaining + [pending[i]];
      }
    }
    assert pending[..|pending|] == pending;
  }
}
