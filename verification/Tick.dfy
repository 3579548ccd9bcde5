/** One mining tick: draining, routing of outcomes, quarantine, requeueing and the block. */
module Tick {
  import opened Records
  import opened Pools
  import opened Draining
  import opened Lanes
  import opened Routing
  import opened Failures
  import Text

  const TX_BATCH := 256
  const QUARANTINE_LIMIT := 256
  const DEFAULT_TASK_BATCH := 8

  // ---------------------------------------------------------------- the engine

  datatype Assembled = Assembled(transfers: seq<Entry>, tasks: seq<Entry>, proofs: seq<(WorkItem, string)>)

  function LastOf(log: seq<Entry>): seq<Entry> {
    if |log| > QUARANTINE_LIMIT then log[|log| - QUARANTINE_LIMIT..] else log
  }

  class Engine {
    const txPool: Pool
    const taskPool: Pool
    var failures: map<string, nat>
    var quarantined: seq<Entry>
    ghost var log: seq<Entry>  // everything ever quarantined; the record keeps the last 256

    ghost predicate Valid()
      reads this, txPool, taskPool
    {
      && txPool != taskPool
      && txPool.Valid() && taskPool.Valid()
      && quarantined == LastOf(log)
    }

    constructor (txPool: Pool, taskPool: Pool)
      requires txPool != taskPool && txPool.Valid() && taskPool.Valid()
      ensures Valid() && this.txPool == txPool && this.taskPool == taskPool && log == [] && failures == map[]
    {
      this.txPool, this.taskPool := txPool, taskPool;
      failures, quarantined, log := map[], [], [];
    }

    method RecordQuarantined(e: Entry)
      requires quarantined == LastOf(log)
      modifies this
      ensures quarantined == LastOf(log) && log == old(log) + [e] && failures == old(failures)
    {
      quarantined := quarantined + [e];
      log := log + [e];
      if |quarantined| > QUARANTINE_LIMIT {
        quarantined := quarantined[|quarantined| - QUARANTINE_LIMIT..];
      }
    }

    method RecordAll(es: seq<Entry>)
      requires quarantined == LastOf(log)
      modifies this
      ensures quarantined == LastOf(log) && log == old(log) + es && failures == old(failures)
    {
      for i := 0 to |es|
        invariant quarantined == LastOf(log) && log == old(log) + es[..i] && failures == old(failures)
      {
        RecordQuarantined(es[i]);
        assert es[..i + 1] == es[..i] + [es[i]];
      }
      assert es[..|es|] == es;
    }

    /** The outcome loop. */
    method RouteOutcomes(os: seq<MineOutcome>, terminal: string -> bool) returns (r: Routed)
      requires quarantined == LastOf(log)
      modifies this
      ensures r == RouteAll(Fresh(old(failures)), os, terminal)
      ensures quarantined == LastOf(log) && log == old(log) + r.log && failures == r.failures
    {
      ghost var start := Fresh(failures);
      r := Fresh(failures);
      for i := 0 to |os|
        invariant r == RouteAll(start, os[..i], terminal)
        invariant quarantined == LastOf(log) && log == old(log) + r.log && failures == r.failures
      {
        assert os[..i + 1][..i] == os[..i];
        var next := Route(r, os[i], terminal);
        LogStep(r, os[i], terminal);
        if |next.log| > |r.log| {
          RecordQuarantined(os[i].job.item.entry);
        }
        r := next;
        failures := r.failures;
      }
      assert os[..|os|] == os;
    }

    /**
     Removes both pools' entries past the cutoffs, sender by sender in any order, and records
     the tasks. Afterwards neither pool holds an entry past its sender's cutoff.
     */
    method ApplyCutoffs(cutoffs: map<string, nat>) returns (tasks: seq<Entry>, transfers: seq<Entry>)
      requires Valid()
      modifies this, txPool, taskPool
      ensures Valid() && log == old(log) + tasks && failures == old(failures)
      ensures multiset(taskPool.pending) + multiset(tasks) == multiset(old(taskPool.pending))
      ensures multiset(txPool.pending) + multiset(transfers) == multiset(old(txPool.pending))
      ensures forall e :: e in tasks || e in transfers ==> PastCutoff(cutoffs, e.tx)
      ensures forall e :: e in taskPool.pending || e in txPool.pending ==> !PastCutoff(cutoffs, e.tx)
    {
      hide Indexes, PoolInv, Select, Thinned;
      tasks, transfers := [], [];
      var todo := cutoffs.Keys;
      while todo != {}
        invariant todo <= cutoffs.Keys
        invariant Valid() && log == old(log) + tasks && failures == old(failures)
        invariant multiset(taskPool.pending) + multiset(tasks) == multiset(old(taskPool.pending))
        invariant multiset(txPool.pending) + multiset(transfers) == multiset(old(txPool.pending))
        invariant forall e :: e in tasks || e in transfers ==> PastCutoff(cutoffs, e.tx)
        invariant forall e :: e in taskPool.pending && PastCutoff(cutoffs, e.tx) ==> e.tx.from in todo
        invariant forall e :: e in txPool.pending && PastCutoff(cutoffs, e.tx) ==> e.tx.from in todo
        decreases todo
      {
        var sender :| sender in todo;
        todo := todo - {sender};
        CutOne(taskPool.pending, sender, cutoffs);
        CutOne(txPool.pending, sender, cutoffs);
        var removedTasks := taskPool.RemoveSenderFromNonce(sender, cutoffs[sender]);
        RecordAll(removedTasks);
        var removedTransfers := txPool.RemoveSenderFromNonce(sender, cutoffs[sender]);
        tasks := tasks + removedTasks;
        transfers := transfers + removedTransfers;
      }
    }
  }

  /** Removing one sender's entries from its cutoff on. */
  lemma CutOne(p: seq<Entry>, sender: string, cutoffs: map<string, nat>)
    requires sender in cutoffs
    ensures var gone, rest := Select(p, sender, cutoffs[sender], true), Select(p, sender, cutoffs[sender], false);
      && multiset(gone) + multiset(rest) == multiset(p)
      && (forall e :: e in gone ==> PastCutoff(cutoffs, e.tx))
      && (forall e :: e in rest ==> e in p && (PastCutoff(cutoffs, e.tx) ==> e.tx.from != sender))
  {
    hide Select, Thinned;
    SelectParts(p, sender, cutoffs[sender]);
    SelectSplits(p, sender, cutoffs[sender], true);
    SelectSplits(p, sender, cutoffs[sender], false);
  }

  /** The partition loop. */
  method Partition(items: seq<WorkItem>, owns: WorkItem -> bool) returns (owned: seq<WorkItem>, skipped: seq<WorkItem>)
    ensures owned == Owned(items, owns, true) && skipped == Owned(items, owns, false)
  {
    owned, skipped := [], [];
    for i := 0 to |items|
      invariant owned == Owned(items[..i], owns, true) && skipped == Owned(items[..i], owns, false)
    {
      assert items[..i + 1][..i] == items[..i];
      if owns(items[i]) {
        owned := owned + [items[i]];
      } else {
        skipped := skipped + [items[i]];
      }
    }
    assert items[..|items|] == items;
  }

  method CutTransactions(txs: seq<Entry>, cutoffs: map<string, nat>) returns (kept: seq<Entry>, removed: seq<Entry>)
    ensures kept == Cut(txs, cutoffs, false) && removed == Cut(txs, cutoffs, true)
  {
    kept, removed := [], [];
    for i := 0 to |txs|
      invariant kept == Cut(txs[..i], cutoffs, false) && removed == Cut(txs[..i], cutoffs, true)
    {
      assert txs[..i + 1][..i] == txs[..i];
      if PastCutoff(cutoffs, txs[i].tx) {
        removed := removed + [txs[i]];
      } else {
        kept := kept + [txs[i]];
      }
    }
    assert txs[..|txs|] == txs;
  }

  /** Requeueing a part of what a pool once held, next to the rest of it, loses nothing. */
  method RequeueAll(pool: Pool, es: seq<Entry>, ghost whole: seq<Entry>)
    requires pool.Valid() && PoolInv(whole, pool.limit, pool.senderLimit)
    requires multiset(pool.pending) + multiset(es) <= multiset(whole)
    modifies pool
    ensures pool.Valid()
    ensures pool.pending == old(pool.pending) + es
  {
    hide Indexes, PoolInv, RequeueInto;
    SubPool(pool.pending + es, whole, pool.limit, pool.senderLimit);
    RequeueFits(pool.pending, es, pool.limit, pool.senderLimit);
    pool.Requeue(es);
  }

  // ---------------------------------------------------------------- the quarantine record

  /** What was logged last is in the record, all of it, exactly when it fits the record's 256 places. */
  lemma RecordHolds(before: seq<Entry>, logged: seq<Entry>)
    ensures multiset(logged) <= multiset(LastOf(before + logged)) <==> |logged| <= QUARANTINE_LIMIT
  {
    var log := before + logged;
    var record := LastOf(log);
    if |logged| <= QUARANTINE_LIMIT {
      var extra := |record| - |logged|;
      assert record == record[..extra] + logged;
    } else if multiset(logged) <= multiset(record) {
      SmallerBag(multiset(logged), multiset(record));
    }
  }

  lemma {:induction false} SmallerBag(a: multiset<Entry>, b: multiset<Entry>)
    requires a <= b
    ensures |a| <= |b|
    decreases |a|
  {
    if a != multiset{} {
      var x :| x in a;
      SmallerBag(a - multiset{x}, b - multiset{x});
    }
  }

  /** A task named by its nonce. */
  function NumberedTask(sender: string, n: nat): Entry {
    Entry(Transaction(Text.Decimal(n), SearchTask, sender, "", Plain(1), n, 1, [], [], []), "")
  }

  /** One more than the record holds, and the first is forgotten. */
  lemma RecordForgets(before: seq<Entry>, sender: string)
    requires forall n: nat :: NumberedTask(sender, n) !in before
    ensures var logged := seq(QUARANTINE_LIMIT + 1, n requires 0 <= n => NumberedTask(sender, n));
      && logged[0] !in LastOf(before + logged)
      && forall n :: 0 < n <= QUARANTINE_LIMIT ==> logged[n] in LastOf(before + logged)
  {
    var logged := seq(QUARANTINE_LIMIT + 1, n requires 0 <= n => NumberedTask(sender, n));
    var record := LastOf(before + logged);
    assert record == logged[1..];
    forall n | 0 < n <= QUARANTINE_LIMIT
      ensures logged[n] in record
    {
      assert record[n - 1] == logged[n];
    }
    forall k | 0 <= k < |record|
      ensures record[k] != logged[0]
    {
      assert record[k] == NumberedTask(sender, k + 1);
    }
  }

  // ---------------------------------------------------------------- the tick

  /** What a tick did: its picks, the tasks it owned, their routing, and what the cutoffs took away. */
  datatype TickTrace = TickTrace(
    picks: seq<Entry>,
    owned: seq<WorkItem>,
    outcomes: seq<MineOutcome>,
    routed: Routed,
    quarantined: seq<Entry>,
    dropped: seq<Entry>,
    followOns: seq<Entry>)

  /** How many of `pending` entries a batch limit takes. */
  function BatchOf(limit: int, pending: nat): nat {
    if limit <= 0 || limit > pending then pending else limit
  }

  function TaskBatch(batch: int): int {
    if batch <= 0 then DEFAULT_TASK_BATCH else batch
  }

  /** At most 256 transfers a tick, and as many tasks as asked for, or 8. */
  lemma BatchSizes(batch: int, pending: nat)
    ensures BatchOf(TX_BATCH, pending) == if pending < 256 then pending else 256
    ensures BatchOf(TaskBatch(batch), pending) ==
      var limit := if batch <= 0 then 8 else batch; if pending < limit then pending else limit
    ensures QUARANTINE_LIMIT == 256
  {
  }

  /** Drains both pools and hands the tasks that other workers own straight back. */
  method TakeWork(e: Engine, batch: int, frontier: seq<WorkItem>, owns: WorkItem -> bool)
    returns (transfers: seq<Entry>, owned: seq<WorkItem>, ghost picks: seq<Entry>)
    requires e.Valid() && forall i :: 0 <= i < |frontier| ==> frontier[i].source == Frontier
    modifies e.txPool, e.taskPool
    ensures e.Valid()
    ensures Greedy(SetOf(old(e.taskPool.pending)), picks)
    ensures |picks| == BatchOf(TaskBatch(batch), |old(e.taskPool.pending)|)
    ensures owned == Owned(Wrap(picks) + frontier, owns, true) && InNonceOrder(owned)
    ensures multiset(TasksOf(owned)) + multiset(e.taskPool.pending) == multiset(old(e.taskPool.pending))
    ensures multiset(EntriesFrom(owned, Frontier)) <= multiset(EntriesFrom(frontier, Frontier))
    ensures transfers + e.txPool.pending == old(e.txPool.pending)
    ensures |transfers| == BatchOf(TX_BATCH, |old(e.txPool.pending)|)
  {
    hide Indexes, PoolInv, Greedy, Without, EntriesFrom, Owned, InNonceOrder;
    transfers := e.txPool.Drain(TX_BATCH);
    var tasks := DrainHighestValue(e.taskPool, TaskBatch(batch));
    picks := tasks;
    var items := Wrap(tasks) + frontier;
    EntriesOfWork(tasks, frontier);
    DrainedInOrder(SetOf(old(e.taskPool.pending)), tasks, frontier);
    var skipped;
    owned, skipped := Partition(items, owns);
    OwnedSplits(items, owns, Mempool);
    OwnedSplits(items, owns, Frontier);
    OwnedInOrder(items, owns);
    RequeueAll(e.taskPool, TasksOf(skipped), old(e.taskPool.pending));
  }

  /** Applies the quarantine cutoffs to the drained transfers and to both pools. */
  method Quarantine(e: Engine, transfers: seq<Entry>, cutoffs: map<string, nat>)
    returns (kept: seq<Entry>, removedTasks: seq<Entry>, ghost dropped: seq<Entry>)
    requires e.Valid()
    modifies e, e.txPool, e.taskPool
    ensures e.Valid() && e.log == old(e.log) + removedTasks && e.failures == old(e.failures)
    ensures multiset(e.taskPool.pending) + multiset(removedTasks) == multiset(old(e.taskPool.pending))
    ensures multiset(kept) + multiset(e.txPool.pending) + multiset(dropped)
         == multiset(transfers) + multiset(old(e.txPool.pending))
    ensures kept == Cut(transfers, cutoffs, false)
    ensures forall x :: x in dropped || x in removedTasks ==> PastCutoff(cutoffs, x.tx)
    ensures forall x :: x in kept || x in e.txPool.pending || x in e.taskPool.pending ==> !PastCutoff(cutoffs, x.tx)
  {
    hide Indexes, PoolInv, Cut;
    CutSplits(transfers, cutoffs);
    kept, removedTasks, dropped := transfers, [], [];
    if cutoffs == map[] {
      CutNothing(transfers);
    } else {
      hide PastCutoff;
      var cut, removedTransfers;
      kept, cut := CutTransactions(transfers, cutoffs);
      removedTasks, removedTransfers := e.ApplyCutoffs(cutoffs);
      dropped := cut + removedTransfers;
    }
  }

  /** The tasks a block carries. */
  function TasksIn(block: Option<Assembled>): seq<Entry> {
    if block.Some? then block.value.tasks else []
  }

  function TransfersIn(block: Option<Assembled>): seq<Entry> {
    if block.Some? then block.value.transfers else []
  }

  const NO_WORK := Assembled([], [], [])

  /** Offers the assembled block to the chain; a refused block's work goes back to the pools. */
  method OfferBlock(e: Engine, transfers: seq<Entry>, r: Routed, accepts: Assembled -> bool,
                    ghost wholeTasks: seq<Entry>, ghost wholeTransfers: seq<Entry>)
    returns (block: Option<Assembled>)
    requires e.Valid()
    requires PoolInv(wholeTasks, e.taskPool.limit, e.taskPool.senderLimit)
    requires PoolInv(wholeTransfers, e.txPool.limit, e.txPool.senderLimit)
    requires multiset(e.taskPool.pending) + multiset(r.mined) <= multiset(wholeTasks)
    requires multiset(e.txPool.pending) + multiset(transfers) <= multiset(wholeTransfers)
    modifies e.txPool, e.taskPool
    ensures e.Valid()
    ensures var assembled := Assembled(transfers, r.mined, r.proofs);
      block == if assembled != NO_WORK && accepts(assembled) then Some(assembled) else None
    ensures multiset(TasksIn(block)) + multiset(e.taskPool.pending)
         == multiset(r.mined) + multiset(old(e.taskPool.pending))
    ensures multiset(TransfersIn(block)) + multiset(e.txPool.pending)
         == multiset(transfers) + multiset(old(e.txPool.pending))
    ensures forall x :: x in TasksIn(block) || x in e.taskPool.pending ==> x in r.mined || x in old(e.taskPool.pending)
    ensures old(e.taskPool.pending) <= e.taskPool.pending
    ensures forall x :: x in TransfersIn(block) || x in e.txPool.pending ==>
      x in transfers || x in old(e.txPool.pending)
  {
    hide Indexes, PoolInv;
    if transfers == [] && r.mined == [] && r.proofs == [] {
      return None;
    }
    var assembled := Assembled(transfers, r.mined, r.proofs);
    if accepts(assembled) {
      return Some(assembled);
    }
    RequeueAll(e.txPool, transfers, wholeTransfers);
    RequeueAll(e.taskPool, r.mined, wholeTasks);
    block := None;
  }

  /** What the outcomes of some tasks came to, and what routing them keeps. */
  ghost predicate Settles(r: Routed, followOns: seq<Entry>, owned: seq<WorkItem>) {
    && multiset(r.mined) + multiset(r.failed) + multiset(r.quarantined) == multiset(TasksOf(owned))
    && CutoffsQuarantined(r)
    && Clean(r)
    && multiset(r.log) == multiset(r.quarantined) + multiset(followOns)
    && multiset(followOns) <= multiset(EntriesFrom(owned, Frontier))
  }

  lemma RoutingSettles(failures: map<string, nat>, owned: seq<WorkItem>, os: seq<MineOutcome>, terminal: string -> bool)
    requires Answers(os, owned) && Disciplined(os) && InNonceOrder(owned)
    ensures Settles(RouteAll(Fresh(failures), os, terminal), Dismissed(Fresh(failures), os, terminal), owned)
  {
    hide TasksOf, EntriesFrom, RouteAll, Dismissed, Answers, Disciplined, InNonceOrder, Clean;
    var start := Fresh(failures);
    RouteAllConserves(start, os, owned, terminal);
    LogIsExact(start, os, owned, terminal);
    RouteIsClean(failures, os, owned, terminal);
    assert Buckets(start) == multiset{};
  }

  /** Mines the owned tasks, routes their outcomes, quarantines, and requeues the tasks to retry. */
  method SettleOutcomes(e: Engine, transfers: seq<Entry>, owned: seq<WorkItem>, outcomes: seq<MineOutcome>,
                        terminal: string -> bool, ghost wholeTasks: seq<Entry>)
    returns (r: Routed, kept: seq<Entry>, ghost quarantined: seq<Entry>, ghost dropped: seq<Entry>,
      ghost followOns: seq<Entry>)
    requires e.Valid() && PoolInv(wholeTasks, e.taskPool.limit, e.taskPool.senderLimit)
    requires Answers(outcomes, owned) && Disciplined(outcomes) && InNonceOrder(owned)
    requires multiset(TasksOf(owned)) + multiset(e.taskPool.pending) == multiset(wholeTasks)
    modifies e, e.txPool, e.taskPool
    ensures e.Valid()
    ensures r == RouteAll(Fresh(old(e.failures)), outcomes, terminal) && e.failures == r.failures
    ensures kept == Cut(transfers, r.cutoffs, false)
    ensures multiset(r.mined) + multiset(e.taskPool.pending) + multiset(quarantined) == multiset(wholeTasks)
    ensures multiset(kept) + multiset(e.txPool.pending) + multiset(dropped)
         == multiset(transfers) + multiset(old(e.txPool.pending))
    ensures forall x :: x in quarantined || x in dropped ==> PastCutoff(r.cutoffs, x.tx)
    ensures forall x :: x in r.mined || x in kept ==> !PastCutoff(r.cutoffs, x.tx)
    ensures forall x :: x in e.taskPool.pending || x in e.txPool.pending ==> !PastCutoff(r.cutoffs, x.tx)
    ensures forall s :: s in r.cutoffs ==> exists x :: x in quarantined && x.tx.from == s && x.tx.nonce == r.cutoffs[s]
    ensures LogsExactly(old(e.log), e.log, quarantined, followOns)
    ensures followOns == Dismissed(Fresh(old(e.failures)), outcomes, terminal)
    ensures multiset(followOns) <= multiset(EntriesFrom(owned, Frontier))
    ensures CountsRight(old(e.failures), e.failures, quarantined, e.taskPool.pending, outcomes, terminal)
  {
    hide Indexes, PoolInv, TasksOf, EntriesFrom, PastCutoff, RouteAll, Dismissed, CutoffsQuarantined, Cut, Answers,
      Disciplined, InNonceOrder, CountsRight;
    RoutingCountsRight(e.failures, outcomes, terminal);
    ghost var before := multiset(e.taskPool.pending);
    RoutingSettles(e.failures, owned, outcomes, terminal);
    followOns := Dismissed(Fresh(e.failures), outcomes, terminal);
    r := e.RouteOutcomes(outcomes, terminal);
    var removedTasks;
    kept, removedTasks, dropped := Quarantine(e, transfers, r.cutoffs);
    quarantined := r.quarantined + removedTasks;
    LogParts(old(e.log), r, removedTasks, followOns);
    CutoffsStay(r, removedTasks);
    TaskSums(multiset(wholeTasks), multiset(TasksOf(owned)), before, multiset(e.taskPool.pending),
             multiset(removedTasks), multiset(r.mined), multiset(r.failed), multiset(r.quarantined));
    RequeueAll(e.taskPool, r.failed, wholeTasks);
    CountsWiden(old(e.failures), e.failures, r.quarantined, r.failed, quarantined, e.taskPool.pending, outcomes,
                terminal);
  }

  /** The log grew by exactly the quarantined tasks and the dismissed follow-on tasks. */
  ghost predicate LogsExactly(before: seq<Entry>, after: seq<Entry>, quarantined: seq<Entry>, followOns: seq<Entry>) {
    before <= after && multiset(after[|before|..]) == multiset(quarantined) + multiset(followOns)
  }

  lemma LogParts(before: seq<Entry>, r: Routed, removed: seq<Entry>, followOns: seq<Entry>)
    requires multiset(r.log) == multiset(r.quarantined) + multiset(followOns)
    ensures LogsExactly(before, before + r.log + removed, r.quarantined + removed, followOns)
  {
    assert (before + r.log + removed)[|before|..] == r.log + removed;
  }

  lemma CutoffsStay(r: Routed, removed: seq<Entry>)
    requires CutoffsQuarantined(r)
    ensures forall s :: s in r.cutoffs ==>
      exists x :: x in r.quarantined + removed && x.tx.from == s && x.tx.nonce == r.cutoffs[s]
  {
    forall s | s in r.cutoffs
      ensures exists x :: x in r.quarantined + removed && x.tx.from == s && x.tx.nonce == r.cutoffs[s]
    {
      var x :| x in r.quarantined && x.tx.from == s && x.tx.nonce == r.cutoffs[s];
      assert x in r.quarantined + removed;
    }
  }

  /**
   One tick without interleaved submissions. Every task that was pending is afterwards in
   exactly one of the block, the pool and the quarantine, and in the quarantine if and only if
   its nonce is at or past its sender's cutoff. A transfer is lost if and only if its nonce is
   at or past that cutoff. Each cutoff is the lowest nonce of its sender that the tick
   quarantined. The quarantine log grew by exactly the quarantined tasks and the follow-on tasks
   that failed for good, and the record of the last 256 holds all of these exactly when they
   number at most 256.
   */
  method MineOnce(e: Engine, batch: int, frontier: seq<WorkItem>, owns: WorkItem -> bool, mine: Miner,
                  concurrency: int, terminal: string -> bool, accepts: Assembled -> bool)
    returns (block: Option<Assembled>, ghost t: TickTrace)
    requires e.Valid()
    requires forall i :: 0 <= i < |frontier| ==> frontier[i].source == Frontier
    modifies e, e.txPool, e.taskPool
    ensures e.Valid()
    // what was taken, and what became of it
    ensures Greedy(SetOf(old(e.taskPool.pending)), t.picks) && PicksInOrder(SetOf(old(e.taskPool.pending)), t.picks)
    ensures |t.picks| == BatchOf(TaskBatch(batch), |old(e.taskPool.pending)|)
    ensures var limit := if batch <= 0 then 8 else batch;
      |t.picks| == if |old(e.taskPool.pending)| < limit then |old(e.taskPool.pending)| else limit
    ensures t.owned == Owned(Wrap(t.picks) + frontier, owns, true)
    ensures OutcomesOf(t.owned, mine, t.outcomes)
    ensures t.routed == RouteAll(Fresh(old(e.failures)), t.outcomes, terminal) && e.failures == t.routed.failures
    ensures var transfers := old(e.txPool.pending)[..BatchOf(TX_BATCH, |old(e.txPool.pending)|)];
      var assembled := Assembled(Cut(transfers, t.routed.cutoffs, false), t.routed.mined, t.routed.proofs);
      block == if assembled != NO_WORK && accepts(assembled) then Some(assembled) else None
    // nothing is lost but what a cutoff takes
    ensures multiset(TasksIn(block)) + multiset(e.taskPool.pending) + multiset(t.quarantined)
         == multiset(old(e.taskPool.pending))
    ensures multiset(TransfersIn(block)) + multiset(e.txPool.pending) + multiset(t.dropped)
         == multiset(old(e.txPool.pending))
    ensures forall x :: x in t.quarantined || x in t.dropped ==> PastCutoff(t.routed.cutoffs, x.tx)
    ensures forall x :: x in TasksIn(block) || x in TransfersIn(block) ==> !PastCutoff(t.routed.cutoffs, x.tx)
    ensures forall x :: x in e.taskPool.pending || x in e.txPool.pending ==> !PastCutoff(t.routed.cutoffs, x.tx)
    ensures forall s :: s in t.routed.cutoffs ==>
      exists x :: x in t.quarantined && x.tx.from == s && x.tx.nonce == t.routed.cutoffs[s]
    // failure counts, and the tasks to retry or to give up
    ensures CountsRight(old(e.failures), e.failures, t.quarantined, e.taskPool.pending, t.outcomes, terminal)
    // the quarantine log and the record
    ensures LogsExactly(old(e.log), e.log, t.quarantined, t.followOns)
    ensures t.followOns == Dismissed(Fresh(old(e.failures)), t.outcomes, terminal)
    ensures multiset(t.followOns) <= multiset(EntriesFrom(frontier, Frontier))
    ensures multiset(t.quarantined) + multiset(t.followOns) <= multiset(e.quarantined)
       <==> |t.quarantined| + |t.followOns| <= 256
  {
    hide *;
    ghost var wholeTasks, wholeTransfers, failures := e.taskPool.pending, e.txPool.pending, e.failures;
    PoolsFit(e);
    var transfers, owned;
    ghost var picks;
    transfers, owned, picks := TakeWork(e, batch, frontier, owns);
    BatchSizes(batch, |wholeTasks|);
    GreedyInOrder(SetOf(wholeTasks), picks);
    assert transfers == wholeTransfers[..|transfers|];
    assert multiset(transfers) + multiset(e.txPool.pending) == multiset(wholeTransfers);
    if transfers == [] && owned == [] {
      NothingRouted(e, mine, terminal);
      t := TickTrace(picks, owned, [], Fresh(e.failures), [], [], []);
      return None, t;
    }
    var outcomes := MineSearchTasks(owned, mine, concurrency);
    OutcomesAnswer(owned, mine, outcomes);
    OutcomesHoldBack(owned, mine, outcomes);
    ghost var logged := e.log;
    var r, kept;
    ghost var quarantined, dropped, followOns;
    r, kept, quarantined, dropped, followOns := SettleOutcomes(e, transfers, owned, outcomes, terminal, wholeTasks);
    ghost var back := e.taskPool.pending;
    block := OfferBlock(e, kept, r, accepts, wholeTasks, wholeTransfers);
    CountsWiden(failures, e.failures, quarantined, back, quarantined, e.taskPool.pending, outcomes, terminal);
    t := TickTrace(picks, owned, outcomes, r, quarantined, dropped, followOns);
    RecordOfTick(logged, e.log, quarantined, followOns);
    RecordIsLast(e);
    PartsOfBlock(block, kept, r);
  }

  lemma RecordIsLast(e: Engine)
    requires e.Valid()
    ensures e.quarantined == LastOf(e.log)
  {
    hide LastOf;
  }

  lemma PartsOfBlock(block: Option<Assembled>, kept: seq<Entry>, r: Routed)
    ensures block == Some(Assembled(kept, r.mined, r.proofs)) ==>
      TasksIn(block) == r.mined && TransfersIn(block) == kept
    ensures block == None ==> TasksIn(block) == [] && TransfersIn(block) == []
  {
  }

  /** The record after a tick, from what the tick logged. */
  lemma RecordOfTick(before: seq<Entry>, after: seq<Entry>, quarantined: seq<Entry>, followOns: seq<Entry>)
    requires LogsExactly(before, after, quarantined, followOns)
    ensures multiset(quarantined) + multiset(followOns) <= multiset(LastOf(after))
       <==> |quarantined| + |followOns| <= QUARANTINE_LIMIT
  {
    var logged := after[|before|..];
    assert after == before + logged;
    RecordHolds(before, logged);
    assert |logged| == |multiset(logged)| == |multiset(quarantined)| + |multiset(followOns)|;
  }

  lemma PoolsFit(e: Engine)
    requires e.Valid()
    ensures PoolInv(e.taskPool.pending, e.taskPool.limit, e.taskPool.senderLimit)
    ensures PoolInv(e.txPool.pending, e.txPool.limit, e.txPool.senderLimit)
  {
  }

  /** Where the parts of the task pool are while a tick runs. */
  lemma TaskSums(whole: multiset<Entry>, owned: multiset<Entry>, before: multiset<Entry>, pool: multiset<Entry>,
                 removed: multiset<Entry>, mined: multiset<Entry>, failed: multiset<Entry>,
                 quarantined: multiset<Entry>)
    requires owned + before == whole && pool + removed == before && mined + failed + quarantined == owned
    ensures pool + failed <= whole && pool + failed + mined <= whole
    ensures mined + (pool + failed) + (quarantined + removed) == whole
  {
  }

  /** A tick without any work leaves everything as it is. */
  lemma NothingRouted(e: Engine, mine: Miner, terminal: string -> bool)
    requires e.Valid()
    ensures OutcomesOf([], mine, []) && TasksOf([]) == [] && Cut([], map[], false) == []
    ensures RouteAll(Fresh(e.failures), [], terminal) == Fresh(e.failures)
    ensures Dismissed(Fresh(e.failures), [], terminal) == [] && Fresh(e.failures).failures == e.failures
    ensures Fresh(e.failures).mined == [] && Fresh(e.failures).proofs == [] && Fresh(e.failures).cutoffs == map[]
    ensures TasksIn(None) == [] && TransfersIn(None) == [] && NO_WORK == Assembled([], [], [])
    ensures forall tx :: !PastCutoff(map[], tx)
    ensures LogsExactly(e.log, e.log, [], []) && QUARANTINE_LIMIT == 256
    ensures multiset{} <= multiset(e.quarantined)
    ensures CountsRight(e.failures, e.failures, [], e.taskPool.pending, [], terminal)
  {
    NoLanes(mine);
    hide OutcomesOf, LastOf;
  }

  // ---------------------------------------------------------------- a tick that loses a transfer

  /** Every crawl fails. */
  function Gone(task: nat): Crawl {
    Failed("gone")
  }

  function OwnsAll(item: WorkItem): bool {
    true
  }

  function ForGood(reason: string): bool {
    true
  }

  lemma OneOwned(task: Entry)
    ensures Owned(Wrap([task]) + [], OwnsAll, true) == [WorkItem(Mempool, task, task.tx.hash)]
  {
    var item := WorkItem(Mempool, task, task.tx.hash);
    assert Wrap([task]) + [] == [item];
    assert [item][..0] == [];
  }

  /** A lone task is tried. */
  lemma OneOutcome(item: WorkItem, mine: Miner, os: seq<MineOutcome>)
    requires OutcomesOf([item], mine, os)
    ensures os == [Tried(Job(0, item), mine(0))]
  {
    assert [item][..0] == [];
    assert LaneOrder([item]) == [LaneKey(item)];
    assert JobsOf([item], LaneKey(item)) == [Job(0, item)];
    assert LanesOf([item])[0] == [Job(0, item)];
    assert LanesOf([item])[0][0].index == 0;
  }

  lemma OnePick(task: Entry, picks: seq<Entry>)
    requires Greedy(SetOf([task]), picks) && |picks| == 1
    ensures picks == [task]
  {
    hide Greedy;
    GreedyMembers(SetOf([task]), picks);
    assert picks[0] in SetOf(picks);
  }

  /** What a tick over one task that fails for good comes to. */
  lemma OneFailureRoutes(task: Entry, failures: map<string, nat>, os: seq<MineOutcome>)
    requires os == [Tried(Job(0, WorkItem(Mempool, task, task.tx.hash)), Failed("gone"))]
    ensures RouteAll(Fresh(failures), os, ForGood).cutoffs == map[task.tx.from := task.tx.nonce]
  {
    assert os[..0] == [];
    assert RouteAll(Fresh(failures), os[..0], ForGood) == Fresh(failures);
  }

  lemma OneBatch()
    ensures BatchOf(TaskBatch(0), 1) == 1 && EntriesFrom([], Frontier) == []
  {
  }

  /** A pool that holds one entry. */
  method PoolOf(e: Entry) returns (pool: Pool)
    ensures fresh(pool) && pool.Valid() && pool.pending == [e]
  {
    pool := new Pool(0, 0);
    assert AddTo([], 0, 0, e) == Outcome(None, [] + [e]);
    var refused := pool.Add(e);
  }

  /** Whatever is past a cutoff is neither in the block nor in the pool, and a transfer is never logged. */
  lemma LostFrom(task: Entry, transfer: Entry, block: Option<Assembled>, e: Engine, t: TickTrace)
    requires task != transfer && PastCutoff(t.routed.cutoffs, transfer.tx)
    requires multiset(TasksIn(block)) + multiset(e.taskPool.pending) + multiset(t.quarantined) == multiset([task])
    requires multiset(TransfersIn(block)) + multiset(e.txPool.pending) + multiset(t.dropped) == multiset([transfer])
    requires forall x :: x in TransfersIn(block) || x in e.txPool.pending ==> !PastCutoff(t.routed.cutoffs, x.tx)
    requires LogsExactly([], e.log, t.quarantined, t.followOns) && multiset(t.followOns) <= multiset([])
    ensures TransfersIn(block) == [] && e.txPool.pending == [] && transfer !in e.log
  {
    NothingOf(TransfersIn(block), transfer);
    NothingOf(e.txPool.pending, transfer);
    assert e.log[0..] == e.log;
    assert transfer in e.log <==> transfer in multiset(e.log);
  }

  lemma NothingOf(p: seq<Entry>, e: Entry)
    requires multiset(p) <= multiset([e]) && e !in p
    ensures p == []
  {
    assert e !in multiset(p);
    assert multiset(p) == multiset{};
    assert |p| == |multiset(p)|;
  }

  /**
   A sender's task with nonce 0 fails for good, and its transfer with nonce 1 is then neither
   in a block nor in the pool, nor anywhere in the quarantine log.
   */
  method TransferLost(sender: string, accepts: Assembled -> bool)
    returns (e: Engine, block: Option<Assembled>, transfer: Entry)
    ensures fresh(e) && e.Valid()
    ensures transfer == Entry(Transaction("t", Transfer, sender, "", Plain(1), 1, 1, [], [], []), "")
    ensures TransfersIn(block) == [] && e.txPool.pending == [] && transfer !in e.log
  {
    transfer := Entry(Transaction("t", Transfer, sender, "", Plain(1), 1, 1, [], [], []), "");
    var task := Entry(Transaction("s", SearchTask, sender, "", Plain(1), 0, 1, [], [], []), "");
    var txPool := PoolOf(transfer);
    var taskPool := PoolOf(task);
    e := new Engine(txPool, taskPool);
    hide *;
    OneBatch();
    ghost var t: TickTrace;
    block, t := MineOnce(e, 0, [], OwnsAll, Gone, 1, ForGood, accepts);
    OneTaskGone(task, t);
    CutsTransfer(t.routed.cutoffs, sender, transfer.tx);
    LostFrom(task, transfer, block, e, t);
  }

  /** A tick that owns one task, of which the crawl fails for good. */
  lemma OneTaskGone(task: Entry, t: TickTrace)
    requires Greedy(SetOf([task]), t.picks) && |t.picks| == 1
    requires t.owned == Owned(Wrap(t.picks) + [], OwnsAll, true) && OutcomesOf(t.owned, Gone, t.outcomes)
    requires t.routed == RouteAll(Fresh(map[]), t.outcomes, ForGood)
    ensures t.routed.cutoffs == map[task.tx.from := task.tx.nonce]
  {
    assert Gone(0) == Failed("gone");
    hide *;
    OnePick(task, t.picks);
    OneOwned(task);
    OneOutcome(WorkItem(Mempool, task, task.tx.hash), Gone, t.outcomes);
    OneFailureRoutes(task, map[], t.outcomes);
  }

  lemma CutsTransfer(cutoffs: map<string, nat>, sender: string, tx: Transaction)
    requires sender in cutoffs && tx.from == sender && tx.nonce >= cutoffs[sender]
    ensures PastCutoff(cutoffs, tx)
  {
  }
}
