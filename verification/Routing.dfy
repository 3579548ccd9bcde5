/** How a mining tick routes the outcomes of its tasks, and what the quarantine cutoffs take away. */
module Routing {
  import opened Records
  import opened Pools
  import opened Draining
  import opened Lanes
  import Totals

  const TASK_FAILURE_LIMIT := 3

  // ---------------------------------------------------------------- pools as multisets

  lemma {:induction false} UniqueOnce(p: seq<Entry>, e: Entry)
    requires Unique(p)
    ensures multiset(p)[e] <= 1
  {
    if p != [] {
      var init, last := p[..|p| - 1], p[|p| - 1];
      assert p == init + [last];
      UniqueOnce(init, e);
      assert forall i :: 0 <= i < |init| ==> p[i] != p[|p| - 1];
      assert last !in init && last !in multiset(init);
    }
  }

  /** Taking one entry out of the middle of a list. */
  lemma CountRemove(p: seq<Entry>, i: nat, s: string)
    requires i < |p|
    ensures CountFrom(p, s) == CountFrom(p[..i] + p[i + 1..], s) + if p[i].tx.from == s then 1 else 0
  {
    var a, x, b := p[..i], p[i], p[i + 1..];
    assert p == a + ([x] + b);
    CountAppend(a, b, s);
    CountAppend(a, [x] + b, s);
    CountAppend([x], b, s);
    CountOne(x, s);
    hide CountFrom;
  }

  lemma CountOne(e: Entry, s: string)
    ensures CountFrom([e], s) == if e.tx.from == s then 1 else 0
  {
    assert [e][..0] == [];
  }

  lemma {:induction false} CountSub(q: seq<Entry>, p: seq<Entry>, s: string)
    requires multiset(q) <= multiset(p)
    ensures CountFrom(q, s) <= CountFrom(p, s) && |q| <= |p|
    decreases |q|
  {
    if q != [] {
      var init, last := q[..|q| - 1], q[|q| - 1];
      assert q == init + [last];
      assert last in multiset(p);
      var i :| 0 <= i < |p| && p[i] == last;
      CountRemove(p, i, s);
      Totals.BagRemove(p, i);
      CountRemove(q, |q| - 1, s);
      hide CountFrom;
      assert init + q[|q|..] == init;
      assert multiset(init) <= multiset(p) - multiset{last};
      CountSub(init, p[..i] + p[i + 1..], s);
    }
  }

  lemma Repeated(q: seq<Entry>, i: nat, j: nat)
    requires i < j < |q| && q[i] == q[j]
    ensures multiset(q)[q[i]] >= 2
  {
    assert q == q[..i] + [q[i]] + q[i + 1..j] + [q[j]] + q[j + 1..];
  }

  /** Any part of a valid pool, in any order, keeps the pool invariant. */
  lemma SubPool(q: seq<Entry>, p: seq<Entry>, limit: int, senderLimit: int)
    requires PoolInv(p, limit, senderLimit) && multiset(q) <= multiset(p)
    ensures PoolInv(q, limit, senderLimit)
  {
    hide CountFrom;
    forall i, j | 0 <= i < j < |q|
      ensures q[i].tx.hash != q[j].tx.hash && !SameSlot(q[i].tx, q[j].tx)
    {
      if q[i] == q[j] {
        Repeated(q, i, j);
        UniqueOnce(p, q[i]);
      } else {
        assert q[i] in multiset(q) && q[j] in multiset(q);
        assert q[i] in multiset(p) && q[j] in multiset(p);
        var a :| 0 <= a < |p| && p[a] == q[i];
        var b :| 0 <= b < |p| && p[b] == q[j];
      }
    }
    CountSub(q, p, "");
    forall s: string
      ensures CountFrom(q, s) <= CountFrom(p, s)
    {
      CountSub(q, p, s);
    }
  }

  lemma AddFits(p: seq<Entry>, e: Entry, limit: int, senderLimit: int)
    requires PoolInv(p + [e], limit, senderLimit)
    ensures AddTo(p, limit, senderLimit, e) == Outcome(None, p + [e])
  {
    var r := p + [e];
    assert r[|p|] == e;
    assert forall i :: 0 <= i < |p| ==> r[i] == p[i];
    CountAppend(p, [e], e.tx.from);
    assert CountFrom([e], e.tx.from) == 1;
  }

  /** Requeueing entries that fit, next to what is pending, appends them all. */
  lemma {:induction false} RequeueFits(p: seq<Entry>, es: seq<Entry>, limit: int, senderLimit: int)
    requires PoolInv(p + es, limit, senderLimit)
    ensures RequeueInto(p, limit, senderLimit, es) == p + es
    decreases |es|
  {
    hide PoolInv, AddTo;
    if es == [] {
      assert p + es == p;
    } else {
      assert p + [es[0]] + es[1..] == p + es;
      assert multiset(p + es) == multiset(p + [es[0]]) + multiset(es[1..]);
      SubPool(p + [es[0]], p + es, limit, senderLimit);
      AddFits(p, es[0], limit, senderLimit);
      RequeueFits(p + [es[0]], es[1..], limit, senderLimit);
    }
  }

  // ---------------------------------------------------------------- work items

  function Wrap(tasks: seq<Entry>): (items: seq<WorkItem>)
    ensures |items| == |tasks|
  {
    seq(|tasks|, i requires 0 <= i < |tasks| => WorkItem(Mempool, tasks[i], tasks[i].tx.hash))
  }

  /** The entries of one source among work items, in order. */
  function EntriesFrom(items: seq<WorkItem>, source: Source): seq<Entry> {
    if items == [] then []
    else
      var item := items[|items| - 1];
      EntriesFrom(items[..|items| - 1], source) + if item.source == source then [item.entry] else []
  }

  function TasksOf(items: seq<WorkItem>): seq<Entry> {
    EntriesFrom(items, Mempool)
  }

  ghost function OneMore(item: WorkItem, source: Source): multiset<Entry> {
    if item.source == source then multiset{item.entry} else multiset{}
  }

  lemma EntriesGrow(items: seq<WorkItem>, item: WorkItem, source: Source)
    ensures multiset(EntriesFrom(items + [item], source))
         == multiset(EntriesFrom(items, source)) + OneMore(item, source)
  {
    assert (items + [item])[..|items|] == items;
  }

  lemma {:induction false} EntriesOfWrap(tasks: seq<Entry>)
    ensures EntriesFrom(Wrap(tasks), Mempool) == tasks && EntriesFrom(Wrap(tasks), Frontier) == []
  {
    if tasks != [] {
      EntriesOfWrap(tasks[..|tasks| - 1]);
      assert Wrap(tasks)[..|tasks| - 1] == Wrap(tasks[..|tasks| - 1]);
    }
  }

  /** Putting follow-on tasks behind the drained ones mixes nothing up. */
  lemma {:induction false} EntriesOfWork(tasks: seq<Entry>, frontier: seq<WorkItem>)
    requires forall i :: 0 <= i < |frontier| ==> frontier[i].source == Frontier
    ensures EntriesFrom(Wrap(tasks) + frontier, Mempool) == tasks
    ensures EntriesFrom(Wrap(tasks) + frontier, Frontier) == EntriesFrom(frontier, Frontier)
    decreases |frontier|
  {
    if frontier == [] {
      EntriesOfWrap(tasks);
      assert Wrap(tasks) + frontier == Wrap(tasks);
    } else {
      var init := frontier[..|frontier| - 1];
      EntriesOfWork(tasks, init);
      assert (Wrap(tasks) + frontier)[..|tasks| + |init|] == Wrap(tasks) + init;
    }
  }

  /** The items that are owned, or the others, in order. */
  function Owned(items: seq<WorkItem>, owns: WorkItem -> bool, hit: bool): seq<WorkItem> {
    if items == [] then []
    else
      var item := items[|items| - 1];
      Owned(items[..|items| - 1], owns, hit) + if owns(item) == hit then [item] else []
  }

  /** A partition splits the entries of each source exactly. */
  lemma {:induction false} OwnedSplits(items: seq<WorkItem>, owns: WorkItem -> bool, source: Source)
    ensures var mine, rest := Owned(items, owns, true), Owned(items, owns, false);
      multiset(EntriesFrom(mine, source)) + multiset(EntriesFrom(rest, source)) == multiset(EntriesFrom(items, source))
  {
    if items != [] {
      hide Owned, EntriesFrom, OneMore;
      var init, item := items[..|items| - 1], items[|items| - 1];
      assert items == init + [item];
      OwnedSplits(init, owns, source);
      OwnedStep(init, item, owns);
      EntriesGrow(Owned(init, owns, owns(item)), item, source);
      EntriesGrow(init, item, source);
    }
  }

  lemma OwnedStep(init: seq<WorkItem>, item: WorkItem, owns: WorkItem -> bool)
    ensures Owned(init + [item], owns, owns(item)) == Owned(init, owns, owns(item)) + [item]
    ensures Owned(init + [item], owns, !owns(item)) == Owned(init, owns, !owns(item))
  {
    assert (init + [item])[..|init|] == init;
  }

  /** Outcomes come one per item, in item order. */
  ghost predicate Answers(os: seq<MineOutcome>, items: seq<WorkItem>) {
    |os| == |items| && forall i :: 0 <= i < |items| ==> os[i].job.item == items[i]
  }

  // ---------------------------------------------------------------- routing the outcomes

  /**
   The accumulators of a tick: mined and failed mempool tasks, quarantined mempool tasks, the
   quarantine log (follow-on tasks included), the lowest quarantined nonce per sender, failure
   counts, and the proofs for the block.
   */
  datatype Routed = Routed(
    mined: seq<Entry>,
    failed: seq<Entry>,
    quarantined: seq<Entry>,
    log: seq<Entry>,
    cutoffs: map<string, nat>,
    failures: map<string, nat>,
    proofs: seq<(WorkItem, string)>)

  predicate PastCutoff(cutoffs: map<string, nat>, tx: Transaction) {
    tx.from in cutoffs && tx.nonce >= cutoffs[tx.from]
  }

  function Lowered(cutoffs: map<string, nat>, tx: Transaction): map<string, nat> {
    if tx.from !in cutoffs || tx.nonce < cutoffs[tx.from] then cutoffs[tx.from := tx.nonce] else cutoffs
  }

  function RouteHeldBack(r: Routed, item: WorkItem): Routed {
    if item.source != Mempool then r
    else if PastCutoff(r.cutoffs, item.entry.tx)
      then r.(quarantined := r.quarantined + [item.entry], log := r.log + [item.entry])
    else r.(failed := r.failed + [item.entry])
  }

  function RouteFailure(r: Routed, item: WorkItem, terminal: bool): Routed {
    var hash := item.entry.tx.hash;
    var count := Counted(r.failures, hash) + 1;
    if terminal || count >= TASK_FAILURE_LIMIT then
      var logged := r.(log := r.log + [item.entry], failures := r.failures - {hash});
      if item.source == Mempool then
        logged.(quarantined := r.quarantined + [item.entry], cutoffs := Lowered(r.cutoffs, item.entry.tx))
      else logged
    else
      var counted := r.(failures := r.failures[hash := count]);
      if item.source == Mempool then counted.(failed := r.failed + [item.entry]) else counted
  }

  function RouteMined(r: Routed, item: WorkItem, page: string): Routed {
    var proved := r.(failures := r.failures - {item.entry.tx.hash}, proofs := r.proofs + [(item, page)]);
    if item.source == Mempool then proved.(mined := r.mined + [item.entry]) else proved
  }

  function Route(r: Routed, o: MineOutcome, terminal: string -> bool): Routed {
    match o
    case HeldBack(job, _) => RouteHeldBack(r, job.item)
    case Tried(job, Failed(reason)) => RouteFailure(r, job.item, terminal(reason))
    case Tried(job, Mined(page)) => RouteMined(r, job.item, page)
  }

  function RouteAll(start: Routed, os: seq<MineOutcome>, terminal: string -> bool): Routed {
    if os == [] then start else Route(RouteAll(start, os[..|os| - 1], terminal), os[|os| - 1], terminal)
  }

  /** The accumulators before the first outcome. */
  function Fresh(failures: map<string, nat>): Routed {
    Routed([], [], [], [], map[], failures, [])
  }

  ghost function Buckets(r: Routed): multiset<Entry> {
    multiset(r.mined) + multiset(r.failed) + multiset(r.quarantined)
  }

  /** Each cutoff is the nonce of a quarantined task of that sender. */
  ghost predicate CutoffsQuarantined(r: Routed) {
    forall s :: s in r.cutoffs ==> exists e :: e in r.quarantined && e.tx.from == s && e.tx.nonce == r.cutoffs[s]
  }

  lemma RouteBuckets(r: Routed, o: MineOutcome, terminal: string -> bool)
    ensures Buckets(Route(r, o, terminal))
         == Buckets(r) + OneMore(o.job.item, Mempool)
  {
    hide RouteHeldBack, RouteFailure, RouteMined;
    match o {
      case HeldBack(job, _) => HeldBackBuckets(r, job.item);
      case Tried(job, Failed(reason)) => FailureBuckets(r, job.item, terminal(reason));
      case Tried(job, Mined(page)) => MinedBuckets(r, job.item, page);
    }
  }

  lemma HeldBackBuckets(r: Routed, item: WorkItem)
    ensures Buckets(RouteHeldBack(r, item)) == Buckets(r) + OneMore(item, Mempool)
  {
    hide PastCutoff;
    assert multiset(r.failed + [item.entry]) == multiset(r.failed) + multiset{item.entry};
    assert multiset(r.quarantined + [item.entry]) == multiset(r.quarantined) + multiset{item.entry};
  }

  lemma FailureBuckets(r: Routed, item: WorkItem, terminal: bool)
    ensures Buckets(RouteFailure(r, item, terminal)) == Buckets(r) + OneMore(item, Mempool)
  {
    hide Lowered, Counted;
    assert multiset(r.failed + [item.entry]) == multiset(r.failed) + multiset{item.entry};
    assert multiset(r.quarantined + [item.entry]) == multiset(r.quarantined) + multiset{item.entry};
  }

  lemma MinedBuckets(r: Routed, item: WorkItem, page: string)
    ensures Buckets(RouteMined(r, item, page)) == Buckets(r) + OneMore(item, Mempool)
  {
    assert multiset(r.mined + [item.entry]) == multiset(r.mined) + multiset{item.entry};
  }

  lemma RouteCutoffs(r: Routed, o: MineOutcome, terminal: string -> bool)
    requires CutoffsQuarantined(r)
    ensures CutoffsQuarantined(Route(r, o, terminal))
  {
    var t, e := Route(r, o, terminal), o.job.item.entry;
    if t.cutoffs == r.cutoffs {
      assert forall f :: f in r.quarantined ==> f in t.quarantined;
    } else {
      assert t.cutoffs == r.cutoffs[e.tx.from := e.tx.nonce] && t.quarantined == r.quarantined + [e];
      assert e in t.quarantined;
      assert forall f :: f in r.quarantined ==> f in t.quarantined;
    }
  }

  /** Every mempool task's outcome goes to exactly one of the three buckets. */
  lemma {:induction false} RouteAllConserves(start: Routed, os: seq<MineOutcome>, items: seq<WorkItem>,
                                             terminal: string -> bool)
    requires Answers(os, items) && CutoffsQuarantined(start)
    ensures var r := RouteAll(start, os, terminal);
      Buckets(r) == Buckets(start) + multiset(TasksOf(items)) && CutoffsQuarantined(r)
    decreases |os|
  {
    hide Route, CutoffsQuarantined, Buckets;
    if os != [] {
      var init := items[..|items| - 1];
      assert items == init + [items[|items| - 1]];
      RouteAllConserves(start, os[..|os| - 1], init, terminal);
      RouteBuckets(RouteAll(start, os[..|os| - 1], terminal), os[|os| - 1], terminal);
      RouteCutoffs(RouteAll(start, os[..|os| - 1], terminal), os[|os| - 1], terminal);
      EntriesGrow(init, items[|items| - 1], Mempool);
    }
  }

  // ---------------------------------------------------------------- the quarantine log

  /** The follow-on tasks that a step quarantines: those that failed for good. */
  function DismissedBy(r: Routed, o: MineOutcome, terminal: string -> bool): seq<Entry> {
    match o
    case Tried(job, Failed(reason)) =>
      if job.item.source == Frontier
         && (terminal(reason) || Counted(r.failures, job.item.entry.tx.hash) + 1 >= TASK_FAILURE_LIMIT)
      then [job.item.entry] else []
    case _ => []
  }

  function Dismissed(start: Routed, os: seq<MineOutcome>, terminal: string -> bool): seq<Entry> {
    if os == [] then []
    else
      var before := os[..|os| - 1];
      Dismissed(start, before, terminal) + DismissedBy(RouteAll(start, before, terminal), os[|os| - 1], terminal)
  }

  lemma LogStep(r: Routed, o: MineOutcome, terminal: string -> bool)
    ensures var t := Route(r, o, terminal);
      && (t.log == r.log || t.log == r.log + [o.job.item.entry])
      && (t.quarantined == r.quarantined || t.quarantined == r.quarantined + [o.job.item.entry])
      && |t.log| - |r.log| == |t.quarantined| - |r.quarantined| + |DismissedBy(r, o, terminal)|
      && (DismissedBy(r, o, terminal) == []
          || (o.job.item.source == Frontier && DismissedBy(r, o, terminal) == [o.job.item.entry]))
  {
    hide PastCutoff, Lowered, Counted;
  }

  lemma LogBags(q: seq<Entry>, log: seq<Entry>, dismissed: seq<Entry>, e: Entry)
    ensures multiset(log + [e]) == multiset(log) + multiset{e}
    ensures multiset(q + [e]) == multiset(q) + multiset{e}
    ensures multiset(dismissed + [e]) == multiset(dismissed) + multiset{e} && dismissed + [] == dismissed
  {
  }

  /** The log gains exactly the quarantined tasks and the dismissed follow-on tasks. */
  lemma {:induction false} LogIsExact(start: Routed, os: seq<MineOutcome>, items: seq<WorkItem>,
                                      terminal: string -> bool)
    requires Answers(os, items) && multiset(start.log) == multiset(start.quarantined)
    ensures var r, dismissed := RouteAll(start, os, terminal), Dismissed(start, os, terminal);
      && multiset(r.log) == multiset(r.quarantined) + multiset(dismissed)
      && multiset(dismissed) <= multiset(EntriesFrom(items, Frontier))
    decreases |os|
  {
    hide Route, DismissedBy, EntriesFrom, Counted;
    if os != [] {
      var before, o := os[..|os| - 1], os[|os| - 1];
      var init, item := items[..|items| - 1], items[|items| - 1];
      assert items == init + [item];
      LogIsExact(start, before, init, terminal);
      var r := RouteAll(start, before, terminal);
      LogStep(r, o, terminal);
      LogBags(r.quarantined, r.log, Dismissed(start, before, terminal), o.job.item.entry);
      EntriesGrow(init, item, Frontier);
    }
  }

  // ---------------------------------------------------------------- cutoffs

  /** The entries past a cutoff, or the others, in order. */
  function Cut(p: seq<Entry>, cutoffs: map<string, nat>, hit: bool): seq<Entry> {
    if p == [] then []
    else Cut(p[..|p| - 1], cutoffs, hit) + if PastCutoff(cutoffs, p[|p| - 1].tx) == hit then [p[|p| - 1]] else []
  }

  lemma {:induction false} CutHits(p: seq<Entry>, cutoffs: map<string, nat>)
    ensures forall e :: e in Cut(p, cutoffs, true) ==> PastCutoff(cutoffs, e.tx)
    ensures forall e :: e in Cut(p, cutoffs, false) ==> !PastCutoff(cutoffs, e.tx)
  {
    hide PastCutoff;
    if p != [] {
      CutHits(p[..|p| - 1], cutoffs);
    }
  }

  /** The two parts of a cut make the whole, and an entry is cut if and only if it is past its cutoff. */
  lemma CutSplits(p: seq<Entry>, cutoffs: map<string, nat>)
    ensures multiset(Cut(p, cutoffs, true)) + multiset(Cut(p, cutoffs, false)) == multiset(p)
    ensures forall e :: e in Cut(p, cutoffs, true) ==> PastCutoff(cutoffs, e.tx)
    ensures forall e :: e in Cut(p, cutoffs, false) ==> !PastCutoff(cutoffs, e.tx)
  {
    CutHits(p, cutoffs);
    CutParts(p, cutoffs);
  }

  lemma {:induction false} CutParts(p: seq<Entry>, cutoffs: map<string, nat>)
    ensures multiset(Cut(p, cutoffs, true)) + multiset(Cut(p, cutoffs, false)) == multiset(p)
  {
    hide PastCutoff;
    if p != [] {
      var init, last := p[..|p| - 1], p[|p| - 1];
      CutParts(init, cutoffs);
      assert p == init + [last];
      CutStep(p, cutoffs, true);
      CutStep(p, cutoffs, false);
      hide *;
      BagGrows(init, last);
      BagGrows(Cut(init, cutoffs, true), last);
      BagGrows(Cut(init, cutoffs, false), last);
    }
  }

  /** Without cutoffs nothing is cut. */
  lemma {:induction false} CutNothing(p: seq<Entry>)
    ensures Cut(p, map[], false) == p && Cut(p, map[], true) == []
  {
    if p != [] {
      CutNothing(p[..|p| - 1]);
    }
  }

  lemma BagGrows(p: seq<Entry>, e: Entry)
    ensures multiset(p + [e]) == multiset(p) + multiset{e}
  {
  }

  lemma CutStep(p: seq<Entry>, cutoffs: map<string, nat>, hit: bool)
    requires p != []
    ensures var init, last := p[..|p| - 1], p[|p| - 1];
      Cut(p, cutoffs, hit) == if PastCutoff(cutoffs, last.tx) == hit then Cut(init, cutoffs, hit) + [last]
        else Cut(init, cutoffs, hit)
  {
  }

  lemma {:induction false} SelectParts(p: seq<Entry>, sender: string, nonce: nat)
    ensures multiset(Select(p, sender, nonce, true)) + multiset(Select(p, sender, nonce, false)) == multiset(p)
  {
    hide AtOrPast;
    if p != [] {
      var init, last := p[..|p| - 1], p[|p| - 1];
      SelectParts(init, sender, nonce);
      assert p == init + [last];
      if AtOrPast(last, sender, nonce) {
        assert Select(p, sender, nonce, true) == Select(init, sender, nonce, true) + [last];
        assert Select(p, sender, nonce, false) == Select(init, sender, nonce, false);
      } else {
        assert Select(p, sender, nonce, true) == Select(init, sender, nonce, true);
        assert Select(p, sender, nonce, false) == Select(init, sender, nonce, false) + [last];
      }
    }
  }

  // ---------------------------------------------------------------- nonce order from the drain to the block

  /** Tasks of one sender stand in nonce order. */
  ghost predicate InNonceOrder(items: seq<WorkItem>) {
    forall i, j :: 0 <= i < j < |items| ==> NonceStep(items[i], items[j])
  }

  ghost predicate NonceStep(a: WorkItem, b: WorkItem) {
    a.source == b.source == Mempool && a.entry.tx.from == b.entry.tx.from ==> a.entry.tx.nonce < b.entry.tx.nonce
  }

  /** Of two picks of one sender the earlier has the lower nonce. */
  lemma GreedyNonces(pool: set<Entry>, picks: seq<Entry>, i: nat, j: nat)
    requires Greedy(pool, picks) && i < j < |picks| && picks[i].tx.from == picks[j].tx.from
    ensures picks[i].tx.nonce < picks[j].tx.nonce
  {
    hide Greedy;
    GreedyPicksBest(pool, picks, i);
    GreedyMembers(pool, picks);
    assert picks[j] in SetOf(picks);
    forall k | 0 <= k < i
      ensures picks[..i][k] != picks[j]
    {
      assert picks[k] != picks[j];
    }
    assert picks[j] in pool - SetOf(picks[..i]);
  }

  lemma DrainedInOrder(pool: set<Entry>, picks: seq<Entry>, frontier: seq<WorkItem>)
    requires Greedy(pool, picks) && forall i :: 0 <= i < |frontier| ==> frontier[i].source == Frontier
    ensures InNonceOrder(Wrap(picks) + frontier)
  {
    hide Greedy;
    var items := Wrap(picks) + frontier;
    forall i, j | 0 <= i < j < |items|
      ensures NonceStep(items[i], items[j])
    {
      if j < |picks| && picks[i].tx.from == picks[j].tx.from {
        GreedyNonces(pool, picks, i, j);
      } else if j >= |picks| {
        assert items[j] == frontier[j - |picks|];
      }
    }
  }

  lemma {:induction false} OwnedInOrder(items: seq<WorkItem>, owns: WorkItem -> bool)
    requires InNonceOrder(items)
    ensures InNonceOrder(Owned(items, owns, true))
    ensures forall x :: x in Owned(items, owns, true) ==> x in items
  {
    hide NonceStep;
    if items != [] {
      var init, item := items[..|items| - 1], items[|items| - 1];
      assert items == init + [item];
      OwnedInOrder(init, owns);
      var kept, all := Owned(init, owns, true), Owned(items, owns, true);
      assert all == if owns(item) then kept + [item] else kept;
      hide Owned;
      forall i, j | 0 <= i < j < |all|
        ensures NonceStep(all[i], all[j])
      {
        if j < |kept| {
          assert NonceStep(kept[i], kept[j]);
        } else {
          assert kept[i] in init;
          var k :| 0 <= k < |init| && init[k] == kept[i];
          assert NonceStep(items[k], items[|items| - 1]);
        }
      }
    }
  }

  lemma LowerFirst(items: seq<WorkItem>, i: nat, j: nat)
    requires InNonceOrder(items) && i < |items| && j < |items| && items[i].source == items[j].source == Mempool
    requires items[i].entry.tx.from == items[j].entry.tx.from && items[i].entry.tx.nonce < items[j].entry.tx.nonce
    ensures i < j
  {
    hide InNonceOrder;
    if j < i {
      InOrderAt(items, j, i);
    }
  }

  lemma InOrderAt(items: seq<WorkItem>, a: nat, b: nat)
    requires InNonceOrder(items) && a < b < |items| && items[a].source == items[b].source == Mempool
    requires items[a].entry.tx.from == items[b].entry.tx.from
    ensures items[a].entry.tx.nonce < items[b].entry.tx.nonce
  {
    assert NonceStep(items[a], items[b]);
  }

  /** Two tasks of one sender share a lane and stand in it in the order of their indices. */
  lemma SharedLane(items: seq<WorkItem>, i: nat, j: nat) returns (l: nat, p: nat, q: nat)
    requires i < j < |items| && items[i].source == items[j].source == Mempool
    requires items[i].entry.tx.from == items[j].entry.tx.from
    ensures l < |LanesOf(items)| && p < q < |LanesOf(items)[l]|
    ensures LanesOf(items)[l][p] == Job(i, items[i]) && LanesOf(items)[l][q] == Job(j, items[j])
  {
    hide LaneOrder, JobsOf;
    var key := LaneKey(items[i]);
    assert LaneKey(items[j]) == key;
    hide LaneKey;
    LaneOrderMembers(items);
    JobsOfMembers(items, key);
    assert key in LaneOrder(items);
    l :| 0 <= l < |LaneOrder(items)| && LaneOrder(items)[l] == key;
    var lane := LanesOf(items)[l];
    assert lane == JobsOf(items, key);
    assert Job(i, items[i]) in lane && Job(j, items[j]) in lane;
    p :| 0 <= p < |lane| && lane[p] == Job(i, items[i]);
    q :| 0 <= q < |lane| && lane[q] == Job(j, items[j]);
    IncreasingAt(lane, p, q);
  }

  lemma IncreasingAt(lane: seq<Job>, p: nat, q: nat)
    requires Increasing(lane) && p < |lane| && q < |lane| && lane[p].index < lane[q].index
    ensures p < q
  {
  }

  /** Among tasks in nonce order, under any schedule, a sender's mined tasks are its lowest nonces. */
  lemma MinedFromOrdered(items: seq<WorkItem>, mine: Miner, workerCount: nat, schedule: seq<nat>, i: nat, j: nat)
    requires InNonceOrder(items)
    requires forall k :: 0 <= k < |schedule| ==> schedule[k] < workerCount
    requires AllDone(LanesOf(items), RunTasks(items, mine, workerCount, schedule))
    requires i < |items| && j < |items| && items[i].source == items[j].source == Mempool
    requires items[i].entry.tx.from == items[j].entry.tx.from && items[i].entry.tx.nonce < items[j].entry.tx.nonce
    ensures var s := RunTasks(items, mine, workerCount, schedule);
      i in s.outcomes && j in s.outcomes && (Succeeds(s.outcomes[j]) ==> Succeeds(s.outcomes[i]))
  {
    LowerFirst(items, i, j);
    var l, p, q := SharedLane(items, i, j);
    EveryScheduleAgrees(items, mine, workerCount, schedule);
    hide *;
    var s := RunTasks(items, mine, workerCount, schedule);
    var lane := LanesOf(items)[l];
    assert s.outcomes[lane[p].index] == LaneOutcome(mine, lane, p);
    assert s.outcomes[lane[q].index] == LaneOutcome(mine, lane, q);
    if Succeeds(s.outcomes[j]) {
      MinedIsPrefix(mine, lane, p, q);
    }
  }

  /**
   From the drain through the partition and any worker schedule: when a task is mined, every
   owned task of its sender with a lower nonce is mined too.
   */
  lemma MinedNoncesArePrefix(pool: set<Entry>, picks: seq<Entry>, frontier: seq<WorkItem>, owns: WorkItem -> bool,
                             mine: Miner, workerCount: nat, schedule: seq<nat>, i: nat, j: nat)
    requires Greedy(pool, picks) && forall k :: 0 <= k < |frontier| ==> frontier[k].source == Frontier
    requires forall k :: 0 <= k < |schedule| ==> schedule[k] < workerCount
    requires var items := Owned(Wrap(picks) + frontier, owns, true);
      && AllDone(LanesOf(items), RunTasks(items, mine, workerCount, schedule))
      && i < |items| && j < |items|
      && items[i].source == items[j].source == Mempool
      && items[i].entry.tx.from == items[j].entry.tx.from
      && items[i].entry.tx.nonce < items[j].entry.tx.nonce
    ensures var items := Owned(Wrap(picks) + frontier, owns, true);
      var s := RunTasks(items, mine, workerCount, schedule);
      i in s.outcomes && j in s.outcomes && (Succeeds(s.outcomes[j]) ==> Succeeds(s.outcomes[i]))
  {
    hide *;
    DrainedInOrder(pool, picks, frontier);
    OwnedInOrder(Wrap(picks) + frontier, owns);
    MinedFromOrdered(Owned(Wrap(picks) + frontier, owns, true), mine, workerCount, schedule, i, j);
  }

  // ---------------------------------------------------------------- where outcomes come from

  /** The outcome of each item is that of its lane run alone and in order. */
  ghost predicate OutcomesOf(items: seq<WorkItem>, mine: Miner, os: seq<MineOutcome>) {
    && |os| == |items|
    && forall l, p :: 0 <= l < |LanesOf(items)| && 0 <= p < |LanesOf(items)[l]| ==>
         var lane := LanesOf(items)[l];
         lane[p].index < |os| && os[lane[p].index] == LaneOutcome(mine, lane, p)
  }

  /** Whatever the worker schedule, the slots hold these outcomes when the workers are done. */
  lemma ScheduleGives(items: seq<WorkItem>, mine: Miner, workerCount: nat, schedule: seq<nat>, os: seq<MineOutcome>)
    requires forall k :: 0 <= k < |schedule| ==> schedule[k] < workerCount
    requires AllDone(LanesOf(items), RunTasks(items, mine, workerCount, schedule))
    requires |os| == |items|
    requires var s := RunTasks(items, mine, workerCount, schedule);
      forall i :: 0 <= i < |items| ==> i in s.outcomes && os[i] == s.outcomes[i]
    ensures OutcomesOf(items, mine, os)
  {
    EveryScheduleAgrees(items, mine, workerCount, schedule);
    LaneJobs(items);
    hide RunTasks, LanesOf, BlockedAfter, AllDone, LaneOutcome;
  }

  /** These outcomes answer every item in item order. */
  lemma OutcomesAnswer(items: seq<WorkItem>, mine: Miner, os: seq<MineOutcome>)
    requires OutcomesOf(items, mine, os)
    ensures Answers(os, items)
  {
    LanesCoverOnce(items);
    LaneJobs(items);
    var lanes := LanesOf(items);
    hide LanesOf, BlockedAfter;
    forall i | 0 <= i < |items|
      ensures os[i].job.item == items[i]
    {
      assert InLanes(lanes, i);
      var l, p :| 0 <= l < |lanes| && 0 <= p < |lanes[l]| && lanes[l][p].index == i;
      assert os[i] == LaneOutcome(mine, lanes[l], p);
    }
  }

  /** Some worker that can move, whichever the machine runs next. */
  method NextWorker(lanes: seq<seq<Job>>, mine: Miner, s: PoolState) returns (w: nat)
    requires PoolFits(lanes, mine, s) && |s.workers| > 0 && !AllDone(lanes, s)
    ensures w < |s.workers| && |s.finished| == |lanes|
    ensures forall v :: 0 <= v < |s.workers| && s.workers[v].Busy? ==> s.workers[v].lane < |lanes|
    ensures StepWorker(lanes, mine, s, w) != s
  {
    NeverStuck(lanes, mine, s);
    ghost var some := Advancing(lanes, mine, s);
    hide *;
    w :| w < |s.workers| && StepWorker(lanes, mine, s, w) != s;
  }

  /** The worker pool, under any choice of which worker moves next, until every lane is done. */
  method RunPool(lanes: seq<seq<Job>>, mine: Miner, workerCount: nat) returns (s: PoolState, ghost schedule: seq<nat>)
    requires CoversOnce(lanes, 0) && workerCount > 0
    ensures forall k :: 0 <= k < |schedule| ==> schedule[k] < workerCount
    ensures AllDone(lanes, s) && s == RunSchedule(lanes, mine, workerCount, schedule)
  {
    hide *;
    s := Start(lanes, workerCount);
    StartFits(lanes, mine, workerCount);
    schedule := [];
    StartRun(lanes, mine, workerCount);
    while !AllDone(lanes, s)
      invariant PoolFits(lanes, mine, s) && LanesFit(lanes, s) && |s.workers| == workerCount
      invariant forall k :: 0 <= k < |schedule| ==> schedule[k] < workerCount
      invariant s == RunSchedule(lanes, mine, workerCount, schedule)
      decreases StepsLeft(lanes, s)
    {
      var w := NextWorker(lanes, mine, s);
      StepFits(lanes, mine, s, w);
      StepsFall(lanes, mine, s, w);
      RunGrows(lanes, mine, workerCount, schedule, w);
      s := StepWorker(lanes, mine, s, w);
      schedule := schedule + [w];
    }
  }

  /** Crawls the tasks: lanes, a pool of workers, and one outcome slot per task. */
  method MineSearchTasks(items: seq<WorkItem>, mine: Miner, concurrency: int) returns (os: seq<MineOutcome>)
    ensures OutcomesOf(items, mine, os)
  {
    hide *;
    if items == [] {
      NoLanes(mine);
      return [];
    }
    var lanes := LanesOf(items);
    SomeLane(items);
    LanesCoverOnce(items);
    CoversNone(lanes, |items|);
    var workerCount := if concurrency <= 0 then 1 else if concurrency > |lanes| then |lanes| else concurrency;
    var s;
    ghost var schedule;
    s, schedule := RunPool(lanes, mine, workerCount);
    RunIsTasks(items, mine, workerCount, schedule);
    EveryScheduleAgrees(items, mine, workerCount, schedule);
    os := seq(|items|, i requires 0 <= i < |items| && i in s.outcomes => s.outcomes[i]);
    ScheduleGives(items, mine, workerCount, schedule, os);
  }

  lemma NoLanes(mine: Miner)
    ensures OutcomesOf([], mine, [])
  {
    assert LaneOrder([]) == [];
  }

  lemma SomeLane(items: seq<WorkItem>)
    requires items != []
    ensures |LanesOf(items)| > 0
  {
    LaneOrderMembers(items);
    assert LaneKey(items[0]) in LaneOrder(items);
  }

  lemma CoversNone(lanes: seq<seq<Job>>, n: nat)
    requires CoversOnce(lanes, n)
    ensures CoversOnce(lanes, 0)
  {
  }

  lemma StartRun(lanes: seq<seq<Job>>, mine: Miner, workerCount: nat)
    requires CoversOnce(lanes, 0)
    ensures RunSchedule(lanes, mine, workerCount, []) == Start(lanes, workerCount)
    ensures LanesFit(lanes, Start(lanes, workerCount)) && |Start(lanes, workerCount).workers| == workerCount
  {
    StartSteps(lanes, mine, workerCount);
  }

  lemma RunGrows(lanes: seq<seq<Job>>, mine: Miner, workerCount: nat, schedule: seq<nat>, w: nat)
    requires CoversOnce(lanes, 0) && w < workerCount && forall k :: 0 <= k < |schedule| ==> schedule[k] < workerCount
    ensures RunSchedule(lanes, mine, workerCount, schedule + [w])
         == StepWorker(lanes, mine, RunSchedule(lanes, mine, workerCount, schedule), w)
  {
    assert (schedule + [w])[..|schedule|] == schedule;
    hide CoversOnce, WorkersFit, SlotsFit, LanesFit, StepWorker;
  }

  lemma RunIsTasks(items: seq<WorkItem>, mine: Miner, workerCount: nat, schedule: seq<nat>)
    requires forall k :: 0 <= k < |schedule| ==> schedule[k] < workerCount
    ensures CoversOnce(LanesOf(items), 0)
    ensures RunTasks(items, mine, workerCount, schedule) == RunSchedule(LanesOf(items), mine, workerCount, schedule)
  {
    LanesCoverOnce(items);
    hide CoversOnce, LanesOf, RunSchedule;
    CoversNone(LanesOf(items), |items|);
  }

  /** After a failure every later task of its sender is held back. */
  ghost predicate HoldsBack(a: MineOutcome, b: MineOutcome) {
    SameSender(a, b) && FailedTask(a) ==> b.HeldBack?
  }

  ghost predicate SameSender(a: MineOutcome, b: MineOutcome) {
    a.job.item.source == b.job.item.source == Mempool && a.job.item.entry.tx.from == b.job.item.entry.tx.from
  }

  ghost predicate FailedTask(o: MineOutcome) {
    o.job.item.source == Mempool && o.Tried? && o.crawl.Failed?
  }

  ghost predicate Disciplined(os: seq<MineOutcome>) {
    forall i, j :: 0 <= i < j < |os| ==> HoldsBack(os[i], os[j])
  }

  /** A failed task holds back all later tasks of its sender. */
  lemma OutcomesHoldBack(items: seq<WorkItem>, mine: Miner, os: seq<MineOutcome>)
    requires OutcomesOf(items, mine, os)
    ensures Disciplined(os)
  {
    OutcomesAnswer(items, mine, os);
    hide LanesOf, BlockedAfter;
    forall i, j | 0 <= i < j < |os|
      ensures HoldsBack(os[i], os[j])
    {
      if SameSender(os[i], os[j]) && FailedTask(os[i]) {
        var l, p, q := SharedLane(items, i, j);
        var lane := LanesOf(items)[l];
        assert os[lane[p].index] == LaneOutcome(mine, lane, p) && os[lane[q].index] == LaneOutcome(mine, lane, q);
        FailureBlocks(mine, lane, p, q);
      }
    }
  }

  lemma FailureBlocks(mine: Miner, lane: seq<Job>, p: nat, q: nat)
    requires p < q < |lane| && FailedTask(LaneOutcome(mine, lane, p))
    ensures LaneOutcome(mine, lane, q).HeldBack?
  {
    assert BlockedAfter(mine, lane, p + 1).Some?;
    BlockedStays(mine, lane, p + 1, q);
  }

  // ---------------------------------------------------------------- what a cutoff separates

  /** Quarantined tasks are at or past their sender's cutoff; mined and retried tasks are before it. */
  ghost predicate Clean(r: Routed) {
    && (forall x :: x in r.mined || x in r.failed ==> !PastCutoff(r.cutoffs, x.tx))
    && (forall x :: x in r.quarantined ==> PastCutoff(r.cutoffs, x.tx))
  }

  ghost predicate HasTask(os: seq<MineOutcome>, x: Entry) {
    exists i :: 0 <= i < |os| && os[i].job.item.source == Mempool && os[i].job.item.entry == x
  }

  ghost predicate HasFailure(os: seq<MineOutcome>, sender: string) {
    exists i :: 0 <= i < |os| && FailedTask(os[i]) && os[i].job.item.entry.tx.from == sender
  }

  /** What is mined or retried was among the outcomes, and each cutoff comes from a failed task. */
  ghost predicate Traced(r: Routed, os: seq<MineOutcome>) {
    && (forall x :: x in r.mined || x in r.failed ==> HasTask(os, x))
    && (forall s :: s in r.cutoffs ==> HasFailure(os, s))
  }

  lemma TraceStep(r: Routed, before: seq<MineOutcome>, o: MineOutcome, terminal: string -> bool)
    requires Traced(r, before)
    ensures Traced(Route(r, o, terminal), before + [o])
  {
    var os, t := before + [o], Route(r, o, terminal);
    assert os[|before|] == o;
    forall x | HasTask(before, x)
      ensures HasTask(os, x)
    {
      var i :| 0 <= i < |before| && before[i].job.item.source == Mempool && before[i].job.item.entry == x;
      assert os[i] == before[i];
    }
    forall s | HasFailure(before, s)
      ensures HasFailure(os, s)
    {
      var i :| 0 <= i < |before| && FailedTask(before[i]) && before[i].job.item.entry.tx.from == s;
      assert os[i] == before[i];
    }
    forall s | s in t.cutoffs
      ensures HasFailure(os, s)
    {
      if s !in r.cutoffs {
        assert FailedTask(os[|before|]) && o.job.item.entry.tx.from == s;
      }
    }
  }

  lemma CleanStep(r: Routed, o: MineOutcome, terminal: string -> bool)
    requires Clean(r)
    requires o.job.item.source == Mempool && o.Tried? ==> o.job.item.entry.tx.from !in r.cutoffs
    requires o.job.item.source == Mempool ==>
      forall x :: (x in r.mined || x in r.failed) && x.tx.from == o.job.item.entry.tx.from ==>
        x.tx.nonce < o.job.item.entry.tx.nonce
    ensures Clean(Route(r, o, terminal))
  {
    hide Counted;
  }

  /** With outcomes in nonce order and later tasks held back, a cutoff separates a sender's tasks exactly. */
  lemma {:induction false} RouteIsClean(failures: map<string, nat>, os: seq<MineOutcome>, items: seq<WorkItem>,
                                        terminal: string -> bool)
    requires Answers(os, items) && InNonceOrder(items) && Disciplined(os)
    ensures var r := RouteAll(Fresh(failures), os, terminal); Clean(r) && Traced(r, os)
    decreases |os|
  {
    if os != [] {
      var before, o := os[..|os| - 1], os[|os| - 1];
      RouteIsClean(failures, before, items[..|items| - 1], terminal);
      var r := RouteAll(Fresh(failures), before, terminal);
      assert before + [o] == os;
      EarlierTasks(r, os, items);
      hide Clean, Traced, Route, Disciplined, InNonceOrder, Answers;
      CleanStep(r, o, terminal);
      TraceStep(r, before, o, terminal);
    }
  }

  /** What the earlier outcomes say about the last one. */
  lemma EarlierTasks(r: Routed, os: seq<MineOutcome>, items: seq<WorkItem>)
    requires Answers(os, items) && InNonceOrder(items) && Disciplined(os) && os != []
    requires Traced(r, os[..|os| - 1])
    ensures var o := os[|os| - 1];
      o.job.item.source == Mempool ==>
        && (o.Tried? ==> o.job.item.entry.tx.from !in r.cutoffs)
        && forall x :: (x in r.mined || x in r.failed) && x.tx.from == o.job.item.entry.tx.from
             ==> x.tx.nonce < o.job.item.entry.tx.nonce
  {
    var before, o, n := os[..|os| - 1], os[|os| - 1], |os| - 1;
    if o.job.item.source == Mempool {
      if o.job.item.entry.tx.from in r.cutoffs {
        LastHeldBack(os);
      }
      forall x | (x in r.mined || x in r.failed) && x.tx.from == o.job.item.entry.tx.from
        ensures x.tx.nonce < o.job.item.entry.tx.nonce
      {
        assert HasTask(before, x);
        var i :| 0 <= i < |before| && before[i].job.item.source == Mempool && before[i].job.item.entry == x;
        assert os[i] == before[i];
        InOrderAt(items, i, n);
      }
    }
  }

  /** The last task of a sender with an earlier failure is held back. */
  lemma LastHeldBack(os: seq<MineOutcome>)
    requires Disciplined(os) && os != [] && os[|os| - 1].job.item.source == Mempool
    requires HasFailure(os[..|os| - 1], os[|os| - 1].job.item.entry.tx.from)
    ensures os[|os| - 1].HeldBack?
  {
    var n := |os| - 1;
    var i :| 0 <= i < n && FailedTask(os[..n][i]) && os[..n][i].job.item.entry.tx.from == os[n].job.item.entry.tx.from;
    assert HoldsBack(os[i], os[n]);
  }
}
