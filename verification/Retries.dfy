/** A failing task over ticks: it is retried at most twice in a row, and its third failure takes it out of the pool. */
module Retries {
  import opened Records
  import opened Pools
  import opened Draining
  import opened Lanes
  import opened Routing
  import opened Failures
  import opened Tick
  import opened Stalls

  /** What one tick is run with. */
  datatype Plan = Plan(
    batch: int,
    frontier: seq<WorkItem>,
    owns: WorkItem -> bool,
    mine: Miner,
    concurrency: int,
    terminal: string -> bool,
    accepts: Assembled -> bool)

  /** The follow-on items are marked as such and are of other tasks than `x`. */
  ghost predicate FollowOnsDiffer(frontier: seq<WorkItem>, x: Entry) {
    forall i :: 0 <= i < |frontier| ==> frontier[i].source == Frontier && frontier[i].entry.tx.hash != x.tx.hash
  }

  /** The pending task `x` was crawled with the given success. */
  ghost predicate Crawled(os: seq<MineOutcome>, x: Entry, success: bool) {
    exists i :: 0 <= i < |os| && os[i].Tried? && os[i].job.item.source == Mempool && os[i].job.item.entry == x
      && os[i].crawl.Mined? == success
  }

  /** Failures in a row, counted on after a tick. */
  ghost function InARow(before: nat, os: seq<MineOutcome>, x: Entry): nat {
    if Crawled(os, x, true) then 0 else if Crawled(os, x, false) then before + 1 else before
  }

  // ---------------------------------------------------------------- which outcomes are of one task

  /** Where an owned item comes from. */
  lemma ItemFrom(picks: seq<Entry>, frontier: seq<WorkItem>, owns: WorkItem -> bool, item: WorkItem)
    requires item in Owned(Wrap(picks) + frontier, owns, true)
    ensures item in frontier || (item.source == Mempool && item.entry in picks)
  {
    OwnedWithin(Wrap(picks) + frontier, owns);
    if item !in frontier {
      var i :| 0 <= i < |picks| && Wrap(picks)[i] == item;
    }
  }

  lemma {:induction false} OwnedWithin(items: seq<WorkItem>, owns: WorkItem -> bool)
    ensures forall x :: x in Owned(items, owns, true) ==> x in items
  {
    if items != [] {
      OwnedWithin(items[..|items| - 1], owns);
      assert items == items[..|items| - 1] + [items[|items| - 1]];
    }
  }

  /** Every outcome with the hash of a pending task is of that task. */
  lemma OnlyOfTask(pool: seq<Entry>, picks: seq<Entry>, frontier: seq<WorkItem>, owns: WorkItem -> bool,
                   os: seq<MineOutcome>, x: Entry)
    requires Unique(pool) && x in pool && FollowOnsDiffer(frontier, x) && SetOf(picks) <= SetOf(pool)
    requires Answers(os, Owned(Wrap(picks) + frontier, owns, true))
    ensures forall i :: 0 <= i < |os| && HashOf(os[i]) == x.tx.hash ==>
      os[i].job.item.source == Mempool && os[i].job.item.entry == x
  {
    hide Owned, Wrap, FollowOnsDiffer, Unique;
    var items := Owned(Wrap(picks) + frontier, owns, true);
    forall i | 0 <= i < |os| && HashOf(os[i]) == x.tx.hash
      ensures os[i].job.item.source == Mempool && os[i].job.item.entry == x
    {
      assert os[i].job.item == items[i];
      ItemFrom(picks, frontier, owns, items[i]);
      FollowOnHash(frontier, x, items[i]);
      assert items[i].entry in SetOf(picks);
      SameHash(pool, x, items[i].entry);
    }
  }

  lemma FollowOnHash(frontier: seq<WorkItem>, x: Entry, item: WorkItem)
    requires FollowOnsDiffer(frontier, x) && item.entry.tx.hash == x.tx.hash
    ensures item !in frontier
  {
  }

  lemma SameHash(pool: seq<Entry>, x: Entry, y: Entry)
    requires Unique(pool) && x in pool && y in pool && x.tx.hash == y.tx.hash
    ensures x == y
  {
    var i :| 0 <= i < |pool| && pool[i] == x;
    var j :| 0 <= j < |pool| && pool[j] == y;
  }

  /** A task in nonce order among the outcomes stands in at most one of them. */
  lemma OneOutcomeEach(os: seq<MineOutcome>, items: seq<WorkItem>, x: Entry, i: nat, j: nat)
    requires Answers(os, items) && InNonceOrder(items) && i < |os| && j < |os|
    requires os[i].job.item.source == os[j].job.item.source == Mempool
    requires os[i].job.item.entry == os[j].job.item.entry == x
    ensures i == j
  {
    hide InNonceOrder;
    assert os[i].job.item == items[i] && os[j].job.item == items[j];
    if i < j {
      InOrderAt(items, i, j);
    } else if j < i {
      InOrderAt(items, j, i);
    }
  }

  /** One tick, seen by one task that is still pending after it. */
  lemma TickCounts(before: map<string, nat>, after: map<string, nat>, quarantined: seq<Entry>, back: seq<Entry>,
                   os: seq<MineOutcome>, items: seq<WorkItem>, terminal: string -> bool, x: Entry)
    requires CountsRight(before, after, quarantined, back, os, terminal)
    requires Answers(os, items) && InNonceOrder(items) && x in back
    requires forall i :: 0 <= i < |os| && HashOf(os[i]) == x.tx.hash ==>
      os[i].job.item.source == Mempool && os[i].job.item.entry == x
    ensures Counted(after, x.tx.hash) == InARow(Counted(before, x.tx.hash), os, x)
  {
    hide InNonceOrder, Answers;
    if i :| 0 <= i < |os| && HashOf(os[i]) == x.tx.hash {
      forall j | 0 <= j < |os| && j != i
        ensures HashOf(os[j]) != HashOf(os[i])
      {
        if HashOf(os[j]) == x.tx.hash {
          OneOutcomeEach(os, items, x, i, j);
        }
      }
      assert Alone(os, i);
      assert SettledRight(before, after, quarantined, back, os[i], terminal);
      assert forall j :: 0 <= j < |os| && os[j].job.item.entry == x ==> j == i;
    } else {
      assert Absent(os, x.tx.hash);
      assert SameCount(before, after, x.tx.hash);
      assert forall j :: 0 <= j < |os| ==> os[j].job.item.entry != x;
    }
  }

  // ---------------------------------------------------------------- over ticks

  /** One tick of a plan, seen by one pending task. */
  method TickFor(e: Engine, p: Plan, x: Entry) returns (ghost os: seq<MineOutcome>)
    requires e.Valid() && OnceOrTwice(e.failures) && x in e.taskPool.pending && FollowOnsDiffer(p.frontier, x)
    modifies e, e.txPool, e.taskPool
    ensures e.Valid() && OnceOrTwice(e.failures)
    ensures x in e.taskPool.pending ==>
      Counted(e.failures, x.tx.hash) == InARow(Counted(old(e.failures), x.tx.hash), os, x)
  {
    hide *;
    ghost var pool, failures := e.taskPool.pending, e.failures;
    MarkedFrontier(p.frontier, x);
    PoolUnique(e);
    var block;
    ghost var t;
    block, t := MineOnce(e, p.batch, p.frontier, p.owns, p.mine, p.concurrency, p.terminal, p.accepts);
    os := t.outcomes;
    DrainedInOrder(SetOf(pool), t.picks, p.frontier);
    OwnedInOrder(Wrap(t.picks) + p.frontier, p.owns);
    GreedyMembers(SetOf(pool), t.picks);
    OutcomesAnswer(t.owned, p.mine, os);
    OnlyOfTask(pool, t.picks, p.frontier, p.owns, os, x);
    StaysLow(failures, e.failures, t.quarantined, e.taskPool.pending, os, p.terminal);
    if x in e.taskPool.pending {
      TickCounts(failures, e.failures, t.quarantined, e.taskPool.pending, os, t.owned, p.terminal, x);
    }
  }

  lemma MarkedFrontier(frontier: seq<WorkItem>, x: Entry)
    requires FollowOnsDiffer(frontier, x)
    ensures forall i :: 0 <= i < |frontier| ==> frontier[i].source == Frontier
  {
  }

  lemma PoolUnique(e: Engine)
    requires e.Valid()
    ensures Unique(e.taskPool.pending)
  {
    hide Unique;
  }

  lemma StaysLow(before: map<string, nat>, after: map<string, nat>, quarantined: seq<Entry>, back: seq<Entry>,
                 os: seq<MineOutcome>, terminal: string -> bool)
    requires CountsRight(before, after, quarantined, back, os, terminal) && OnceOrTwice(before)
    ensures OnceOrTwice(after)
  {
    hide SettledRight, Alone, Absent, SameCount, OnceOrTwice;
  }

  /**
   Any number of ticks, each with a choice of its own of everything a tick is run with. While a task
   stays pending, its failed crawls since the last successful one are counted exactly, and they are
   never more than two: the third in a row takes it out of the pool.
   */
  method RetriedAtMostTwice(e: Engine, plans: seq<Plan>, x: Entry) returns (stays: bool, ghost inARow: nat)
    requires e.Valid() && OnceOrTwice(e.failures) && x in e.taskPool.pending && x.tx.hash !in e.failures
    requires forall k :: 0 <= k < |plans| ==> FollowOnsDiffer(plans[k].frontier, x)
    modifies e, e.txPool, e.taskPool
    ensures e.Valid() && OnceOrTwice(e.failures)
    ensures stays ==> x in e.taskPool.pending && Counted(e.failures, x.tx.hash) == inARow <= 2
  {
    hide OnceOrTwice, FollowOnsDiffer, InARow, Crawled, Unique;
    stays, inARow := true, 0;
    for k := 0 to |plans|
      invariant e.Valid() && OnceOrTwice(e.failures)
      invariant stays ==> x in e.taskPool.pending && Counted(e.failures, x.tx.hash) == inARow
    {
      if !stays {
        break;
      }
      ghost var os := TickFor(e, plans[k], x);
      inARow := InARow(inARow, os, x);
      stays := x in e.taskPool.pending;
    }
    LowCount(e.failures, x.tx.hash);
  }

  lemma LowCount(failures: map<string, nat>, hash: string)
    requires OnceOrTwice(failures)
    ensures Counted(failures, hash) <= 2
  {
  }

  // ---------------------------------------------------------------- three failures

  function Slow(task: nat): Crawl {
    Failed("slow")
  }

  /** A tick over one pending task whose crawl fails for a passing reason. */
  lemma OneFailure(task: Entry, t: TickTrace, before: map<string, nat>, after: map<string, nat>, back: seq<Entry>)
    requires Greedy(SetOf([task]), t.picks) && |t.picks| == 1
    requires t.owned == Owned(Wrap(t.picks) + [], OwnsAll, true) && OutcomesOf(t.owned, Slow, t.outcomes)
    requires CountsRight(before, after, t.quarantined, back, t.outcomes, Never)
    ensures t.outcomes == [Tried(Job(0, WorkItem(Mempool, task, task.tx.hash)), Failed("slow"))]
    ensures SettledRight(before, after, t.quarantined, back, t.outcomes[0], Never)
  {
    assert Slow(0) == Failed("slow");
    hide *;
    OnePick(task, t.picks);
    OneOwned(task);
    OneOutcome(WorkItem(Mempool, task, task.tx.hash), Slow, t.outcomes);
    AloneAtFirst(before, after, t.quarantined, back, t.outcomes);
  }

  lemma AloneAtFirst(before: map<string, nat>, after: map<string, nat>, quarantined: seq<Entry>, back: seq<Entry>,
                     os: seq<MineOutcome>)
    requires CountsRight(before, after, quarantined, back, os, Never) && |os| == 1
    ensures SettledRight(before, after, quarantined, back, os[0], Never)
  {
    assert Alone(os, 0);
  }

  /** What such a tick leaves, from the count before it. */
  lemma OneFailureLeaves(task: Entry, before: map<string, nat>, after: map<string, nat>, quarantined: seq<Entry>,
                         back: seq<Entry>, o: MineOutcome)
    requires o == Tried(Job(0, WorkItem(Mempool, task, task.tx.hash)), Failed("slow"))
    requires SettledRight(before, after, quarantined, back, o, Never)
    ensures var hash := task.tx.hash;
      if Counted(before, hash) >= 2 then hash !in after && task in quarantined && task !in back
      else hash in after && after[hash] == Counted(before, hash) + 1 && task in back && task !in quarantined
  {
  }

  /** Where a lone task is, from the three places it can be. */
  lemma OnePlace(task: Entry, carried: seq<Entry>, left: seq<Entry>, gone: seq<Entry>)
    requires multiset(carried) + multiset(left) + multiset(gone) == multiset([task])
    ensures task in left ==> left == [task] && gone == []
    ensures task in gone ==> left == [] && gone == [task]
  {
    assert |carried| + |left| + |gone| == |multiset(carried) + multiset(left) + multiset(gone)| == 1;
    assert task in left ==> |left| >= 1 && multiset(left)[task] >= 1;
    assert task in gone ==> |gone| >= 1 && multiset(gone)[task] >= 1;
  }

  lemma LoggedAlone(before: seq<Entry>, after: seq<Entry>, quarantined: seq<Entry>, followOns: seq<Entry>)
    requires LogsExactly(before, after, quarantined, followOns)
    requires multiset(followOns) <= multiset{} && |quarantined| <= 1
    ensures after == before + quarantined
  {
    var logged := after[|before|..];
    assert after == before + logged && multiset(logged) == multiset(quarantined);
    assert |logged| == |multiset(logged)| == |quarantined|;
    if |quarantined| == 1 {
      assert quarantined[0] in multiset(logged);
      assert logged == [quarantined[0]];
    }
  }

  /** A tick in which the only pending task fails for a passing reason. */
  method FailingTick(e: Engine, task: Entry, accepts: Assembled -> bool)
    requires e.Valid() && e.taskPool.pending == [task]
    modifies e, e.txPool, e.taskPool
    ensures e.Valid()
    ensures var hash := task.tx.hash;
      if Counted(old(e.failures), hash) >= 2 then
        e.taskPool.pending == [] && hash !in e.failures && e.log == old(e.log) + [task]
      else
        && e.taskPool.pending == [task] && e.log == old(e.log)
        && hash in e.failures && e.failures[hash] == Counted(old(e.failures), hash) + 1
  {
    hide *;
    ghost var failures, log := e.failures, e.log;
    OneBatch();
    var block;
    ghost var t;
    block, t := MineOnce(e, 0, [], OwnsAll, Slow, 1, Never, accepts);
    OneFailure(task, t, failures, e.failures, e.taskPool.pending);
    OneFailureLeaves(task, failures, e.failures, t.quarantined, e.taskPool.pending, t.outcomes[0]);
    OnePlace(task, TasksIn(block), e.taskPool.pending, t.quarantined);
    LoggedAlone(log, e.log, t.quarantined, t.followOns);
  }

  /**
   A task alone in the pool fails in three successive ticks for a passing reason. After the first and
   the second it is pending, with a count of one and two; after the third it is in the quarantine
   log, out of the pool and without a count.
   */
  method ThirdFailure(e: Engine, task: Entry, accepts: Assembled -> bool)
    returns (ghost first: Option<nat>, ghost second: Option<nat>)
    requires e.Valid() && e.taskPool.pending == [task] && task.tx.hash !in e.failures
    modifies e, e.txPool, e.taskPool
    ensures e.Valid() && first == Some(1) && second == Some(2)
    ensures e.taskPool.pending == [] && task.tx.hash !in e.failures && e.log == old(e.log) + [task]
  {
    var hash := task.tx.hash;
    FailingTick(e, task, accepts);
    first := if hash in e.failures then Some(e.failures[hash]) else None;
    FailingTick(e, task, accepts);
    second := if hash in e.failures then Some(e.failures[hash]) else None;
    FailingTick(e, task, accepts);
  }
}
