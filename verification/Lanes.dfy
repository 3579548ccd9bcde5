/** Mining search tasks in parallel: sender lanes, a pool of workers, and one outcome slot per task. */
module Lanes {
  import opened Records
  import opened Pools
  import Text

  datatype Source = Mempool | Frontier

  /** A drained task, or a follow-on task from the chain with its record's identifier. */
  datatype WorkItem = WorkItem(source: Source, entry: Entry, recordId: string)

  /** What a crawl returned: a mined page or an error text. */
  datatype Crawl = Mined(page: string) | Failed(reason: string)

  datatype Job = Job(index: nat, item: WorkItem)

  /** A task that was tried, or one held back because an earlier nonce of its sender failed. */
  datatype MineOutcome = Tried(job: Job, crawl: Crawl) | HeldBack(job: Job, failedNonce: nat)

  /** What each task's crawl returns in a given run; every task is crawled at most once. */
  type Miner = nat -> Crawl

  // ---------------------------------------------------------------- lanes

  function LaneKey(item: WorkItem): string {
    match item.source
    case Mempool => "mempool:" + Text.Trim(item.entry.tx.from)
    case Frontier => "frontier:" + item.recordId
  }

  /** The lane keys in order of first appearance. */
  function LaneOrder(items: seq<WorkItem>): seq<string> {
    if items == [] then []
    else
      var before, key := LaneOrder(items[..|items| - 1]), LaneKey(items[|items| - 1]);
      if key in before then before else before + [key]
  }

  /** The jobs of one lane, in task order. */
  function JobsOf(items: seq<WorkItem>, key: string): seq<Job> {
    if items == [] then []
    else
      var last := |items| - 1;
      JobsOf(items[..last], key) + if LaneKey(items[last]) == key then [Job(last, items[last])] else []
  }

  function LanesOf(items: seq<WorkItem>): (lanes: seq<seq<Job>>)
    ensures |lanes| == |LaneOrder(items)|
  {
    var order := LaneOrder(items);
    seq(|order|, k requires 0 <= k < |order| => JobsOf(items, order[k]))
  }

  ghost predicate Increasing(lane: seq<Job>) {
    forall p, q :: 0 <= p < q < |lane| ==> lane[p].index < lane[q].index
  }

  lemma {:induction false} JobsOfMembers(items: seq<WorkItem>, key: string)
    ensures forall j :: j in JobsOf(items, key) <==>
      j.index < |items| && j.item == items[j.index] && LaneKey(j.item) == key
    ensures Increasing(JobsOf(items, key))
  {
    hide LaneKey;
    if items != [] {
      var last := |items| - 1;
      JobsOfMembers(items[..last], key);
      var lane, before := JobsOf(items, key), JobsOf(items[..last], key);
      forall p | 0 <= p < |before|
        ensures before[p].index < last && lane[p] == before[p]
      {
        assert before[p] in before;
      }
      forall p, q | 0 <= p < q < |lane|
        ensures lane[p].index < lane[q].index
      {
        if q == |before| {
          assert lane[q].index == last;
        } else {
          assert lane[q] == before[q];
        }
      }
    }
  }

  lemma {:induction false} LaneOrderMembers(items: seq<WorkItem>)
    ensures forall key :: key in LaneOrder(items) <==> exists i :: 0 <= i < |items| && LaneKey(items[i]) == key
    ensures forall a, b :: 0 <= a < b < |LaneOrder(items)| ==> LaneOrder(items)[a] != LaneOrder(items)[b]
  {
    hide LaneKey;
    if items != [] {
      var last := |items| - 1;
      LaneOrderMembers(items[..last]);
      forall i | 0 <= i < last
        ensures LaneKey(items[i]) in LaneOrder(items[..last])
      {
        assert items[..last][i] == items[i];
      }
      forall key | key in LaneOrder(items[..last])
        ensures exists i :: 0 <= i < |items| && LaneKey(items[i]) == key
      {
        var i :| 0 <= i < last && LaneKey(items[..last][i]) == key;
        assert LaneKey(items[i]) == key;
      }
    }
  }

  /** Task indices are different across the lanes, and every index below `n` is in some lane. */
  ghost predicate CoversOnce(lanes: seq<seq<Job>>, n: nat) {
    && (forall l, m, p, q ::
          0 <= l < |lanes| && 0 <= m < |lanes| && 0 <= p < |lanes[l]| && 0 <= q < |lanes[m]| ==>
            lanes[l][p].index == lanes[m][q].index ==> l == m && p == q)
    && (forall i :: 0 <= i < n ==> InLanes(lanes, i))
  }

  ghost predicate InLanes(lanes: seq<seq<Job>>, i: nat) {
    exists l, p :: 0 <= l < |lanes| && 0 <= p < |lanes[l]| && lanes[l][p].index == i
  }

  /** Grouping by lane key puts every task into exactly one place. */
  lemma LanesCoverOnce(items: seq<WorkItem>)
    ensures CoversOnce(LanesOf(items), |items|)
  {
    hide LaneKey, JobsOf, LaneOrder;
    var lanes: seq<seq<Job>> := LanesOf(items);
    var order := LaneOrder(items);
    LaneOrderMembers(items);
    forall l, m, p, q | 0 <= l < |lanes| && 0 <= m < |lanes| && 0 <= p < |lanes[l]| && 0 <= q < |lanes[m]|
      && lanes[l][p].index == lanes[m][q].index
      ensures l == m && p == q
    {
      JobsOfMembers(items, order[l]);
      JobsOfMembers(items, order[m]);
      assert lanes[l][p] in JobsOf(items, order[l]) && lanes[m][q] in JobsOf(items, order[m]);
    }
    forall i | 0 <= i < |items|
      ensures InLanes(lanes, i)
    {
      var key := LaneKey(items[i]);
      assert key in order;
      var l :| 0 <= l < |order| && order[l] == key;
      JobsOfMembers(items, key);
      assert Job(i, items[i]) in lanes[l];
      var p :| 0 <= p < |lanes[l]| && lanes[l][p] == Job(i, items[i]);
      assert lanes[l][p].index == i;
    }
  }

  // ---------------------------------------------------------------- one lane alone

  predicate Blocks(mine: Miner, job: Job) {
    job.item.source == Mempool && mine(job.index).Failed?
  }

  /** The failed nonce that holds back the rest of the lane after `pos` jobs, if any. */
  function BlockedAfter(mine: Miner, lane: seq<Job>, pos: nat): Option<nat>
    requires pos <= |lane|
  {
    if pos == 0 then None
    else
      var before := BlockedAfter(mine, lane, pos - 1);
      if before.Some? then before
      else if Blocks(mine, lane[pos - 1]) then Some(lane[pos - 1].item.entry.tx.nonce)
      else None
  }

  /** The outcome of a job when its lane is run alone and in order. */
  function LaneOutcome(mine: Miner, lane: seq<Job>, pos: nat): MineOutcome
    requires pos < |lane|
  {
    match BlockedAfter(mine, lane, pos)
    case Some(nonce) => HeldBack(lane[pos], nonce)
    case None => Tried(lane[pos], mine(lane[pos].index))
  }

  ghost predicate Succeeds(o: MineOutcome) {
    o.Tried? && o.crawl.Mined?
  }

  lemma {:induction false} BlockedStays(mine: Miner, lane: seq<Job>, p: nat, q: nat)
    requires p <= q <= |lane| && BlockedAfter(mine, lane, p).Some?
    ensures BlockedAfter(mine, lane, q) == BlockedAfter(mine, lane, p)
    decreases q
  {
    if p < q {
      BlockedStays(mine, lane, p, q - 1);
    }
  }

  /** The mined tasks of a mempool lane are a prefix of the lane. */
  lemma MinedIsPrefix(mine: Miner, lane: seq<Job>, p: nat, q: nat)
    requires p < q < |lane| && lane[p].item.source == Mempool
    requires Succeeds(LaneOutcome(mine, lane, q))
    ensures Succeeds(LaneOutcome(mine, lane, p))
  {
    if BlockedAfter(mine, lane, p + 1).Some? {
      BlockedStays(mine, lane, p + 1, q);
    }
  }

  // ---------------------------------------------------------------- the worker pool

  datatype Worker = Idle | Busy(lane: nat, pos: nat, blocked: Option<nat>)

  /** `finished` and `log` record progress per lane and the order of slot writes. */
  datatype PoolState = PoolState(
    next: nat,
    workers: seq<Worker>,
    outcomes: map<nat, MineOutcome>,
    finished: seq<nat>,
    log: seq<nat>)

  function Start(lanes: seq<seq<Job>>, workerCount: nat): PoolState {
    PoolState(0, seq(workerCount, _ => Idle), map[], seq(|lanes|, _ => 0), [])
  }

  function WriteSlot(lanes: seq<seq<Job>>, mine: Miner, s: PoolState, w: nat): PoolState
    requires w < |s.workers| && s.workers[w].Busy? && |s.finished| == |lanes|
    requires s.workers[w].lane < |lanes| && s.workers[w].pos < |lanes[s.workers[w].lane]|
  {
    var me := s.workers[w];
    var job := lanes[me.lane][me.pos];
    var outcome := match me.blocked case Some(nonce) => HeldBack(job, nonce) case None => Tried(job, mine(job.index));
    var blocked :=
      if me.blocked.Some? then me.blocked
      else if Blocks(mine, job) then Some(job.item.entry.tx.nonce) else None;
    s.(workers := s.workers[w := Busy(me.lane, me.pos + 1, blocked)],
       outcomes := s.outcomes[job.index := outcome],
       finished := s.finished[me.lane := me.pos + 1],
       log := s.log + [job.index])
  }

  /** One step of worker `w`: receive a lane, work one job of it, or finish it. */
  function StepWorker(lanes: seq<seq<Job>>, mine: Miner, s: PoolState, w: nat): PoolState
    requires w < |s.workers| && |s.finished| == |lanes|
    requires forall v :: 0 <= v < |s.workers| && s.workers[v].Busy? ==> s.workers[v].lane < |lanes|
  {
    match s.workers[w]
    case Idle =>
      if s.next < |lanes| then s.(next := s.next + 1, workers := s.workers[w := Busy(s.next, 0, None)]) else s
    case Busy(lane, pos, blocked) =>
      if pos < |lanes[lane]| then WriteSlot(lanes, mine, s, w) else s.(workers := s.workers[w := Idle])
  }

  ghost predicate WorkersFit(lanes: seq<seq<Job>>, mine: Miner, s: PoolState) {
    && (forall w :: 0 <= w < |s.workers| && s.workers[w].Busy? ==>
          var me := s.workers[w];
          && me.lane < s.next <= |lanes|
          && me.lane < |s.finished| == |lanes|
          && me.pos == s.finished[me.lane] <= |lanes[me.lane]|
          && me.blocked == BlockedAfter(mine, lanes[me.lane], me.pos))
    && (forall v, w :: 0 <= v < w < |s.workers| && s.workers[v].Busy? && s.workers[w].Busy? ==>
      s.workers[v].lane != s.workers[w].lane)
  }

  ghost predicate InProgress(s: PoolState, l: nat) {
    exists w :: 0 <= w < |s.workers| && s.workers[w].Busy? && s.workers[w].lane == l
  }

  ghost predicate LanesFit(lanes: seq<seq<Job>>, s: PoolState) {
    && s.next <= |lanes| == |s.finished|
    && (forall l :: 0 <= l < |lanes| ==> s.finished[l] <= |lanes[l]|)
    && (forall l :: s.next <= l < |lanes| ==> s.finished[l] == 0)
    && (forall l :: 0 <= l < s.next && !InProgress(s, l) ==> s.finished[l] == |lanes[l]|)
  }

  /** Finished jobs have their slot written, with the outcome of the lane run alone. */
  ghost predicate Written(lanes: seq<seq<Job>>, mine: Miner, s: PoolState) {
    && |s.finished| == |lanes|
    && forall l, p :: 0 <= l < |lanes| && 0 <= p < |lanes[l]| && p < s.finished[l] ==>
         lanes[l][p].index in s.outcomes && s.outcomes[lanes[l][p].index] == LaneOutcome(mine, lanes[l], p)
  }

  /** No other slot is written. */
  ghost predicate OnlyFinished(lanes: seq<seq<Job>>, s: PoolState) {
    |s.finished| == |lanes| && forall i :: i in s.outcomes ==> FinishedJob(lanes, s, i)
  }

  /** Each slot was written once. */
  ghost predicate LogFits(s: PoolState) {
    && (forall i :: i in s.outcomes <==> i in s.log)
    && (forall a, b :: 0 <= a < b < |s.log| ==> s.log[a] != s.log[b])
  }

  ghost predicate SlotsFit(lanes: seq<seq<Job>>, mine: Miner, s: PoolState) {
    Written(lanes, mine, s) && OnlyFinished(lanes, s) && LogFits(s)
  }

  ghost predicate FinishedJob(lanes: seq<seq<Job>>, s: PoolState, i: nat)
    requires |s.finished| == |lanes|
  {
    exists l, p :: 0 <= l < |lanes| && 0 <= p < |lanes[l]| && p < s.finished[l] && lanes[l][p].index == i
  }

  ghost predicate PoolFits(lanes: seq<seq<Job>>, mine: Miner, s: PoolState) {
    WorkersFit(lanes, mine, s) && LanesFit(lanes, s) && SlotsFit(lanes, mine, s)
  }

  // ---------------------------------------------------------------- every schedule

  lemma StartFits(lanes: seq<seq<Job>>, mine: Miner, workerCount: nat)
    ensures PoolFits(lanes, mine, Start(lanes, workerCount))
  {
  }

  lemma ReceiveFits(lanes: seq<seq<Job>>, mine: Miner, s: PoolState, w: nat)
    requires PoolFits(lanes, mine, s) && w < |s.workers| && s.workers[w].Idle? && s.next < |lanes|
    ensures PoolFits(lanes, mine, s.(next := s.next + 1, workers := s.workers[w := Busy(s.next, 0, None)]))
  {
    hide SlotsFit;
    var t := s.(next := s.next + 1, workers := s.workers[w := Busy(s.next, 0, None)]);
    assert InProgress(t, s.next) by {
      assert t.workers[w].lane == s.next;
    }
    forall l | 0 <= l < s.next && InProgress(s, l)
      ensures InProgress(t, l)
    {
      var v :| 0 <= v < |s.workers| && s.workers[v].Busy? && s.workers[v].lane == l;
      assert t.workers[v].lane == l;
    }
    SlotsIgnoreWorkers(lanes, mine, s, t);
  }

  lemma FinishFits(lanes: seq<seq<Job>>, mine: Miner, s: PoolState, w: nat)
    requires PoolFits(lanes, mine, s) && w < |s.workers| && s.workers[w].Busy?
    requires s.workers[w].pos == |lanes[s.workers[w].lane]|
    ensures PoolFits(lanes, mine, s.(workers := s.workers[w := Idle]))
  {
    hide SlotsFit, BlockedAfter;
    var t := s.(workers := s.workers[w := Idle]);
    forall l | 0 <= l < s.next && InProgress(s, l) && l != s.workers[w].lane
      ensures InProgress(t, l)
    {
      var v :| 0 <= v < |s.workers| && s.workers[v].Busy? && s.workers[v].lane == l;
      assert t.workers[v].lane == l;
    }
    SlotsIgnoreWorkers(lanes, mine, s, t);
  }

  lemma SlotsIgnoreWorkers(lanes: seq<seq<Job>>, mine: Miner, s: PoolState, t: PoolState)
    requires SlotsFit(lanes, mine, s) && t.outcomes == s.outcomes && t.finished == s.finished && t.log == s.log
    ensures SlotsFit(lanes, mine, t)
  {
    hide LaneOutcome;
    forall i | i in t.outcomes
      ensures FinishedJob(lanes, t, i)
    {
      assert FinishedJob(lanes, s, i);
      var l, p :| 0 <= l < |lanes| && 0 <= p < |lanes[l]| && p < s.finished[l] && lanes[l][p].index == i;
      assert p < t.finished[l];
    }
  }

  /** The slot a worker is about to write has not been written. */
  lemma SlotIsFree(lanes: seq<seq<Job>>, mine: Miner, s: PoolState, w: nat)
    requires CoversOnce(lanes, 0) && PoolFits(lanes, mine, s) && w < |s.workers| && s.workers[w].Busy?
    requires s.workers[w].pos < |lanes[s.workers[w].lane]|
    ensures lanes[s.workers[w].lane][s.workers[w].pos].index !in s.outcomes
  {
    hide LaneOutcome, BlockedAfter, Written, LogFits, InLanes;
    var me := s.workers[w];
    var i := lanes[me.lane][me.pos].index;
    assert forall l, p :: 0 <= l < |lanes| && 0 <= p < |lanes[l]| && p < s.finished[l] ==> lanes[l][p].index != i;
    assert !FinishedJob(lanes, s, i);
  }

  lemma WriteKeepsWritten(lanes: seq<seq<Job>>, mine: Miner, s: PoolState, w: nat)
    requires PoolFits(lanes, mine, s) && w < |s.workers| && s.workers[w].Busy?
    requires s.workers[w].pos < |lanes[s.workers[w].lane]|
    requires lanes[s.workers[w].lane][s.workers[w].pos].index !in s.outcomes
    ensures Written(lanes, mine, WriteSlot(lanes, mine, s, w))
  {
    hide OnlyFinished, LogFits, BlockedAfter, LanesFit;
    var me := s.workers[w];
    var t := WriteSlot(lanes, mine, s, w);
    var i := lanes[me.lane][me.pos].index;
    assert t.outcomes[i] == LaneOutcome(mine, lanes[me.lane], me.pos);
    hide LaneOutcome;
    forall l, p | 0 <= l < |lanes| && 0 <= p < |lanes[l]| && p < t.finished[l]
      ensures lanes[l][p].index in t.outcomes && t.outcomes[lanes[l][p].index] == LaneOutcome(mine, lanes[l], p)
    {
      if !(l == me.lane && p == me.pos) {
        assert p < s.finished[l];
      }
    }
  }

  lemma WriteKeepsOnly(lanes: seq<seq<Job>>, mine: Miner, s: PoolState, w: nat)
    requires PoolFits(lanes, mine, s) && w < |s.workers| && s.workers[w].Busy?
    requires s.workers[w].pos < |lanes[s.workers[w].lane]|
    ensures OnlyFinished(lanes, WriteSlot(lanes, mine, s, w))
  {
    hide Written, LogFits, BlockedAfter, LanesFit;
    var me := s.workers[w];
    var t := WriteSlot(lanes, mine, s, w);
    var i := lanes[me.lane][me.pos].index;
    forall k | k in t.outcomes
      ensures FinishedJob(lanes, t, k)
    {
      if k == i {
        assert lanes[me.lane][me.pos].index == k && me.pos < t.finished[me.lane];
      } else {
        assert FinishedJob(lanes, s, k);
        var l, p :| 0 <= l < |lanes| && 0 <= p < |lanes[l]| && p < s.finished[l] && lanes[l][p].index == k;
        assert p < t.finished[l];
      }
    }
  }

  /** Writing a slot gives it the outcome of the lane run alone, for the first and only time. */
  lemma WriteSlots(lanes: seq<seq<Job>>, mine: Miner, s: PoolState, w: nat)
    requires CoversOnce(lanes, 0) && PoolFits(lanes, mine, s) && w < |s.workers| && s.workers[w].Busy?
    requires s.workers[w].pos < |lanes[s.workers[w].lane]|
    ensures SlotsFit(lanes, mine, WriteSlot(lanes, mine, s, w))
  {
    SlotIsFree(lanes, mine, s, w);
    WriteKeepsWritten(lanes, mine, s, w);
    WriteKeepsOnly(lanes, mine, s, w);
    hide Written, OnlyFinished, CoversOnce, BlockedAfter;
  }

  lemma WriteKeepsWorkers(lanes: seq<seq<Job>>, mine: Miner, s: PoolState, w: nat)
    requires PoolFits(lanes, mine, s) && w < |s.workers| && s.workers[w].Busy?
    requires s.workers[w].pos < |lanes[s.workers[w].lane]|
    ensures WorkersFit(lanes, mine, WriteSlot(lanes, mine, s, w))
  {
    hide SlotsFit;
    var me := s.workers[w];
    assert WriteSlot(lanes, mine, s, w).workers[w].blocked == BlockedAfter(mine, lanes[me.lane], me.pos + 1);
    hide BlockedAfter;
  }

  lemma WriteKeepsLanes(lanes: seq<seq<Job>>, mine: Miner, s: PoolState, w: nat)
    requires LanesFit(lanes, s) && w < |s.workers| && s.workers[w].Busy?
    requires s.workers[w].lane < |lanes| && s.workers[w].lane < s.next && s.workers[w].pos < |lanes[s.workers[w].lane]|
    ensures LanesFit(lanes, WriteSlot(lanes, mine, s, w))
  {
    var me := s.workers[w];
    var t := WriteSlot(lanes, mine, s, w);
    assert t.workers[w].lane == me.lane;
    forall l | 0 <= l < s.next && InProgress(s, l)
      ensures InProgress(t, l)
    {
      var v :| 0 <= v < |s.workers| && s.workers[v].Busy? && s.workers[v].lane == l;
      assert t.workers[v].lane == l;
    }
  }

  lemma WriteFits(lanes: seq<seq<Job>>, mine: Miner, s: PoolState, w: nat)
    requires CoversOnce(lanes, 0) && PoolFits(lanes, mine, s) && w < |s.workers| && s.workers[w].Busy?
    requires s.workers[w].pos < |lanes[s.workers[w].lane]|
    ensures PoolFits(lanes, mine, WriteSlot(lanes, mine, s, w))
  {
    hide SlotsFit, CoversOnce, BlockedAfter, LanesFit;
    WriteSlots(lanes, mine, s, w);
    WriteKeepsWorkers(lanes, mine, s, w);
    WriteKeepsLanes(lanes, mine, s, w);
  }

  lemma StepFits(lanes: seq<seq<Job>>, mine: Miner, s: PoolState, w: nat)
    requires CoversOnce(lanes, 0) && PoolFits(lanes, mine, s) && w < |s.workers|
    ensures PoolFits(lanes, mine, StepWorker(lanes, mine, s, w))
    ensures |StepWorker(lanes, mine, s, w).workers| == |s.workers|
  {
    match s.workers[w] {
      case Idle =>
        if s.next < |lanes| {
          ReceiveFits(lanes, mine, s, w);
        }
      case Busy(lane, pos, blocked) =>
        if pos < |lanes[lane]| {
          WriteFits(lanes, mine, s, w);
        } else {
          FinishFits(lanes, mine, s, w);
        }
    }
  }

  /** The state after a schedule: the worker to step at each turn. */
  ghost function RunSchedule(lanes: seq<seq<Job>>, mine: Miner, workerCount: nat, schedule: seq<nat>): (s: PoolState)
    requires CoversOnce(lanes, 0) && forall k :: 0 <= k < |schedule| ==> schedule[k] < workerCount
    ensures PoolFits(lanes, mine, s) && |s.workers| == workerCount
    decreases |schedule|
  {
    if schedule == [] then
      StartFits(lanes, mine, workerCount);
      Start(lanes, workerCount)
    else
      var before := RunSchedule(lanes, mine, workerCount, schedule[..|schedule| - 1]);
      StepFits(lanes, mine, before, schedule[|schedule| - 1]);
      StepWorker(lanes, mine, before, schedule[|schedule| - 1])
  }

  /** All lanes have been handed out and every worker has returned. */
  predicate AllDone(lanes: seq<seq<Job>>, s: PoolState) {
    s.next == |lanes| && forall w :: 0 <= w < |s.workers| ==> s.workers[w].Idle?
  }

  /** A run over the lanes of the given tasks. */
  ghost function RunTasks(items: seq<WorkItem>, mine: Miner, workerCount: nat, schedule: seq<nat>): PoolState
    requires forall k :: 0 <= k < |schedule| ==> schedule[k] < workerCount
  {
    LanesCoverOnce(items);
    RunSchedule(LanesOf(items), mine, workerCount, schedule)
  }

  /**
   Whatever the schedule, when the workers are done every task's slot has been written exactly
   once and holds what running its lane alone and in order gives.
   */
  lemma EveryScheduleAgrees(items: seq<WorkItem>, mine: Miner, workerCount: nat, schedule: seq<nat>)
    requires forall k :: 0 <= k < |schedule| ==> schedule[k] < workerCount
    requires AllDone(LanesOf(items), RunTasks(items, mine, workerCount, schedule))
    ensures var s := RunTasks(items, mine, workerCount, schedule);
      && (forall i: nat :: i in s.outcomes <==> i < |items|)
      && (forall i: nat :: i in s.log <==> i < |items|)
      && (forall a, b :: 0 <= a < b < |s.log| ==> s.log[a] != s.log[b])
      && (forall l, p :: 0 <= l < |LanesOf(items)| && 0 <= p < |LanesOf(items)[l]| ==>
            && LanesOf(items)[l][p].index in s.outcomes
            && s.outcomes[LanesOf(items)[l][p].index] == LaneOutcome(mine, LanesOf(items)[l], p))
  {
    hide RunSchedule, LaneOutcome, BlockedAfter, LanesOf;
    var lanes := LanesOf(items);
    var s := RunTasks(items, mine, workerCount, schedule);
    LanesCoverOnce(items);
    LaneJobs(items);
    forall m | 0 <= m < |lanes|
      ensures s.finished[m] == |lanes[m]|
    {
      assert !InProgress(s, m);
    }
    forall i: nat | i < |items|
      ensures i in s.outcomes
    {
      assert InLanes(lanes, i);
      var m, q :| 0 <= m < |lanes| && 0 <= q < |lanes[m]| && lanes[m][q].index == i;
    }
    forall i | i in s.outcomes
      ensures i < |items|
    {
      assert FinishedJob(lanes, s, i);
      var m, q :| 0 <= m < |lanes| && 0 <= q < |lanes[m]| && q < s.finished[m] && lanes[m][q].index == i;
    }
  }

  /** Each job in the lanes is a task at its own index. */
  lemma LaneJobs(items: seq<WorkItem>)
    ensures forall l, p :: 0 <= l < |LanesOf(items)| && 0 <= p < |LanesOf(items)[l]| ==>
      var job := LanesOf(items)[l][p]; job.index < |items| && job.item == items[job.index]
  {
    forall l, p | 0 <= l < |LanesOf(items)| && 0 <= p < |LanesOf(items)[l]|
      ensures var job := LanesOf(items)[l][p]; job.index < |items| && job.item == items[job.index]
    {
      var key := LaneOrder(items)[l];
      JobsOfMembers(items, key);
      assert LanesOf(items)[l][p] in JobsOf(items, key);
    }
  }

  // ---------------------------------------------------------------- progress

  /** Some worker's step changes something. */
  ghost predicate CanAdvance(lanes: seq<seq<Job>>, mine: Miner, s: PoolState)
    requires PoolFits(lanes, mine, s)
  {
    exists w :: 0 <= w < |s.workers| && StepWorker(lanes, mine, s, w) != s
  }

  /** Until they are done, some worker can always take a step. */
  lemma NeverStuck(lanes: seq<seq<Job>>, mine: Miner, s: PoolState)
    requires PoolFits(lanes, mine, s) && |s.workers| > 0 && !AllDone(lanes, s)
    ensures CanAdvance(lanes, mine, s)
  {
    if w :| 0 <= w < |s.workers| && s.workers[w].Busy? {
      var t := StepWorker(lanes, mine, s, w);
      assert t.workers[w] != s.workers[w];
    } else {
      var t := StepWorker(lanes, mine, s, 0);
      assert t.next != s.next;
    }
  }

  ghost predicate WithinLanes(lanes: seq<seq<Job>>, finished: seq<nat>) {
    |finished| == |lanes| && forall l :: 0 <= l < |lanes| ==> finished[l] <= |lanes[l]|
  }

  /** The jobs not done yet. */
  ghost function JobsLeft(lanes: seq<seq<Job>>, finished: seq<nat>): nat
    requires WithinLanes(lanes, finished)
  {
    if lanes == [] then 0
    else
      var last := |lanes| - 1;
      JobsLeft(lanes[..last], finished[..last]) + |lanes[last]| - finished[last]
  }

  lemma {:induction false} OneJobLess(lanes: seq<seq<Job>>, finished: seq<nat>, l: nat)
    requires WithinLanes(lanes, finished) && l < |lanes| && finished[l] < |lanes[l]|
    ensures JobsLeft(lanes, finished[l := finished[l] + 1]) == JobsLeft(lanes, finished) - 1
  {
    var last, after := |lanes| - 1, finished[l := finished[l] + 1];
    if l < last {
      OneJobLess(lanes[..last], finished[..last], l);
      assert after[..last] == finished[..last][l := finished[l] + 1];
    } else {
      assert after[..last] == finished[..last];
    }
  }

  ghost function BusyCount(workers: seq<Worker>): nat {
    if workers == [] then 0
    else BusyCount(workers[..|workers| - 1]) + if workers[|workers| - 1].Busy? then 1 else 0
  }

  lemma {:induction false} BusyChange(workers: seq<Worker>, w: nat, worker: Worker)
    requires w < |workers|
    ensures BusyCount(workers[w := worker])
         == BusyCount(workers) + (if worker.Busy? then 1 else 0) - (if workers[w].Busy? then 1 else 0)
  {
    var last, after := |workers| - 1, workers[w := worker];
    if w < last {
      BusyChange(workers[..last], w, worker);
      assert after[..last] == workers[..last][w := worker];
    } else {
      assert after[..last] == workers[..last];
    }
  }

  /** A bound on the steps still to come: the jobs left, two for each lane not handed out, one for each busy worker. */
  ghost function StepsLeft(lanes: seq<seq<Job>>, s: PoolState): nat
    requires LanesFit(lanes, s)
  {
    JobsLeft(lanes, s.finished) + 2 * (|lanes| - s.next) + BusyCount(s.workers)
  }

  /** Each lane costs its jobs and two more steps. */
  ghost function StepsOf(lanes: seq<seq<Job>>): nat {
    if lanes == [] then 0 else StepsOf(lanes[..|lanes| - 1]) + |lanes[|lanes| - 1]| + 2
  }

  /** At the start the bound is the sum of `|lane| + 2`. */
  lemma StartSteps(lanes: seq<seq<Job>>, mine: Miner, workerCount: nat)
    ensures LanesFit(lanes, Start(lanes, workerCount))
    ensures StepsLeft(lanes, Start(lanes, workerCount)) == StepsOf(lanes)
  {
    StartFits(lanes, mine, workerCount);
    NoJobDone(lanes);
    NobodyBusy(workerCount);
  }

  lemma {:induction false} NoJobDone(lanes: seq<seq<Job>>)
    ensures JobsLeft(lanes, seq(|lanes|, _ => 0)) + 2 * |lanes| == StepsOf(lanes)
  {
    if lanes != [] {
      var last := |lanes| - 1;
      NoJobDone(lanes[..last]);
      assert seq(|lanes|, _ => 0)[..last] == seq(last, _ => 0);
    }
  }

  lemma {:induction false} NobodyBusy(n: nat)
    ensures BusyCount(seq(n, _ => Idle)) == 0
  {
    if n > 0 {
      NobodyBusy(n - 1);
      assert seq(n, _ => Idle)[..n - 1] == seq(n - 1, _ => Idle);
    }
  }

  /** What a step does to the counters. */
  ghost predicate StepShape(lanes: seq<seq<Job>>, s: PoolState, t: PoolState, w: nat) {
    && w < |s.workers| == |t.workers| && t.workers == s.workers[w := t.workers[w]]
    && WithinLanes(lanes, s.finished)
    && (|| t == s
        || (s.workers[w].Idle? && t.workers[w].Busy? && t.next == s.next + 1 && t.finished == s.finished)
        || (s.workers[w].Busy? && t.workers[w].Idle? && t.next == s.next && t.finished == s.finished)
        || (&& s.workers[w].Busy? && t.workers[w].Busy? && t.next == s.next
            && var l := s.workers[w].lane;
            && l < |lanes| && s.finished[l] < |lanes[l]| && t.finished == s.finished[l := s.finished[l] + 1]))
  }

  lemma StepHasShape(lanes: seq<seq<Job>>, mine: Miner, s: PoolState, w: nat)
    requires PoolFits(lanes, mine, s) && w < |s.workers|
    ensures StepShape(lanes, s, StepWorker(lanes, mine, s, w), w)
  {
    hide SlotsFit, BlockedAfter, InProgress;
  }

  /** Every step that changes something lowers the bound. */
  lemma StepsFall(lanes: seq<seq<Job>>, mine: Miner, s: PoolState, w: nat)
    requires CoversOnce(lanes, 0) && PoolFits(lanes, mine, s) && w < |s.workers|
    ensures LanesFit(lanes, StepWorker(lanes, mine, s, w))
    ensures StepWorker(lanes, mine, s, w) == s || StepsLeft(lanes, StepWorker(lanes, mine, s, w)) < StepsLeft(lanes, s)
  {
    StepFits(lanes, mine, s, w);
    StepHasShape(lanes, mine, s, w);
    hide StepWorker, CoversOnce, WorkersFit, LanesFit, SlotsFit, StepShape, StepsLeft;
    ShapeFalls(lanes, s, StepWorker(lanes, mine, s, w), w);
  }

  lemma ShapeFalls(lanes: seq<seq<Job>>, s: PoolState, t: PoolState, w: nat)
    requires LanesFit(lanes, s) && LanesFit(lanes, t) && StepShape(lanes, s, t, w)
    ensures t == s || StepsLeft(lanes, t) < StepsLeft(lanes, s)
  {
    hide JobsLeft, BusyCount, InProgress;
    BusyChange(s.workers, w, t.workers[w]);
    if s.workers[w].Busy? && t.workers[w].Busy? && t != s {
      OneJobLess(lanes, s.finished, s.workers[w].lane);
    }
  }

  lemma Advancing(lanes: seq<seq<Job>>, mine: Miner, s: PoolState) returns (w: nat)
    requires PoolFits(lanes, mine, s) && CanAdvance(lanes, mine, s)
    ensures w < |s.workers| && |s.finished| == |lanes|
    ensures forall v :: 0 <= v < |s.workers| && s.workers[v].Busy? ==> s.workers[v].lane < |lanes|
    ensures StepWorker(lanes, mine, s, w) != s
  {
    hide SlotsFit, StepWorker;
    w :| 0 <= w < |s.workers| && StepWorker(lanes, mine, s, w) != s;
  }

  /** Every schedule can be continued to one that finishes, within the bound. */
  lemma {:induction false} EveryScheduleCanFinish(lanes: seq<seq<Job>>, mine: Miner, workerCount: nat,
                                                  schedule: seq<nat>)
    returns (longer: seq<nat>)
    requires CoversOnce(lanes, 0) && workerCount > 0
    requires forall k :: 0 <= k < |schedule| ==> schedule[k] < workerCount
    ensures schedule <= longer && forall k :: 0 <= k < |longer| ==> longer[k] < workerCount
    ensures AllDone(lanes, RunSchedule(lanes, mine, workerCount, longer))
    ensures LanesFit(lanes, RunSchedule(lanes, mine, workerCount, schedule))
    ensures |longer| - |schedule| <= StepsLeft(lanes, RunSchedule(lanes, mine, workerCount, schedule))
    decreases StepsLeft(lanes, RunSchedule(lanes, mine, workerCount, schedule))
  {
    hide CoversOnce, WorkersFit, SlotsFit, LanesFit, StepWorker, StepsLeft, AllDone;
    var s := RunSchedule(lanes, mine, workerCount, schedule);
    longer := schedule;
    if !AllDone(lanes, s) {
      NeverStuck(lanes, mine, s);
      var w := Advancing(lanes, mine, s);
      StepsFall(lanes, mine, s, w);
      var next := schedule + [w];
      assert next[..|next| - 1] == schedule;
      longer := EveryScheduleCanFinish(lanes, mine, workerCount, next);
    }
  }
}
