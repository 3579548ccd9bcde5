/** Which tasks are crawled, which are held back, and what a tick makes of the pages, written out. */
module Outcomes {
  import opened Records
  import opened Pools
  import opened Lanes
  import opened Routing
  import Text

  // ---------------------------------------------------------------- crawled or held back

  /** Both are pending tasks of one sender, up to white space around its name. */
  ghost predicate ShareSender(a: WorkItem, b: WorkItem) {
    a.source == b.source == Mempool && Text.Trim(a.entry.tx.from) == Text.Trim(b.entry.tx.from)
  }

  /** An earlier task of the sender fails. */
  ghost predicate FailsBefore(items: seq<WorkItem>, mine: Miner, i: nat)
    requires i < |items|
  {
    exists j: nat :: j < i && ShareSender(items[j], items[i]) && mine(j).Failed?
  }

  lemma SameRest(a: string, b: string, x: string, y: string)
    requires a + x == b + y && |a| == |b|
    ensures a == b && x == y
  {
    assert a == (a + x)[..|a|] && b == (b + y)[..|b|];
    assert x == (a + x)[|a|..] && y == (b + y)[|b|..];
  }

  /** A pending task shares its lane with exactly the pending tasks of its sender. */
  lemma SharesLane(a: WorkItem, b: WorkItem)
    requires b.source == Mempool
    ensures LaneKey(a) == LaneKey(b) <==> ShareSender(a, b)
  {
    hide Text.Trim;
    KeyBegins(a);
    KeyBegins(b);
    if LaneKey(a) == LaneKey(b) && a.source == Mempool {
      SameRest("mempool:", "mempool:", Text.Trim(a.entry.tx.from), Text.Trim(b.entry.tx.from));
    }
  }

  lemma KeyBegins(item: WorkItem)
    ensures LaneKey(item) != [] && LaneKey(item)[0] == if item.source == Mempool then 'm' else 'f'
  {
    hide Text.Trim;
  }

  lemma {:induction false} BlockedExactly(mine: Miner, lane: seq<Job>, pos: nat)
    requires pos <= |lane|
    ensures BlockedAfter(mine, lane, pos).Some? <==>
      exists q: nat :: q < pos && lane[q].item.source == Mempool && mine(lane[q].index).Failed?
  {
    if pos > 0 {
      BlockedExactly(mine, lane, pos - 1);
    }
  }

  /** Where a task stands in the lanes. */
  lemma Place(items: seq<WorkItem>, i: nat) returns (l: nat, p: nat)
    requires i < |items|
    ensures l < |LanesOf(items)| && p < |LanesOf(items)[l]|
    ensures LanesOf(items)[l][p] == Job(i, items[i]) && LanesOf(items)[l] == JobsOf(items, LaneKey(items[i]))
  {
    hide LaneKey, JobsOf, LaneOrder;
    var key := LaneKey(items[i]);
    LaneOrderMembers(items);
    JobsOfMembers(items, key);
    assert key in LaneOrder(items);
    l :| 0 <= l < |LaneOrder(items)| && LaneOrder(items)[l] == key;
    assert Job(i, items[i]) in JobsOf(items, key);
    p :| 0 <= p < |LanesOf(items)[l]| && LanesOf(items)[l][p] == Job(i, items[i]);
  }

  /** In the lane of a task, the earlier jobs are the earlier tasks of its lane. */
  lemma FailsInLane(items: seq<WorkItem>, mine: Miner, lane: seq<Job>, p: nat)
    requires p < |lane| && lane[p].index < |items| && lane[p].item == items[lane[p].index]
    requires lane == JobsOf(items, LaneKey(lane[p].item)) && lane[p].item.source == Mempool
    ensures (exists q: nat :: q < p && lane[q].item.source == Mempool && mine(lane[q].index).Failed?)
       <==> FailsBefore(items, mine, lane[p].index)
  {
    hide LaneKey, JobsOf, ShareSender;
    var i, key := lane[p].index, LaneKey(lane[p].item);
    JobsOfMembers(items, key);
    if q: nat :| q < p && lane[q].item.source == Mempool && mine(lane[q].index).Failed? {
      assert lane[q] in lane;
      SharesLane(lane[q].item, lane[p].item);
      assert ShareSender(items[lane[q].index], items[i]);
    }
    if j: nat :| j < i && ShareSender(items[j], items[i]) && mine(j).Failed? {
      SharesLane(items[j], items[i]);
      assert Job(j, items[j]) in lane;
      var q :| 0 <= q < |lane| && lane[q] == Job(j, items[j]);
      IncreasingAt(lane, q, p);
      assert items[j].source == Mempool by {
        SharedSource(items[j], items[i]);
      }
    }
  }

  lemma SharedSource(a: WorkItem, b: WorkItem)
    requires ShareSender(a, b)
    ensures a.source == Mempool
  {
  }

  lemma NeverBlocked(items: seq<WorkItem>, mine: Miner, lane: seq<Job>, p: nat)
    requires p < |lane| && lane == JobsOf(items, LaneKey(lane[p].item)) && lane[p].item.source == Frontier
    ensures forall q: nat :: q < p ==> lane[q].item.source == Frontier
  {
    hide LaneKey, JobsOf, ShareSender;
    JobsOfMembers(items, LaneKey(lane[p].item));
    forall q: nat | q < p
      ensures lane[q].item.source == Frontier
    {
      assert lane[q] in lane;
      if lane[q].item.source == Mempool {
        SharesLane(lane[p].item, lane[q].item);
        SharedSource(lane[p].item, lane[q].item);
      }
    }
  }

  /**
   Under any concurrency and interleaving, a pending task is held back if and only if an earlier one of its
   sender fails; every other task, and so every follow-on task, is crawled, once, for itself.
   */
  lemma OutcomesExactly(items: seq<WorkItem>, mine: Miner, os: seq<MineOutcome>, i: nat)
    requires OutcomesOf(items, mine, os) && i < |items|
    ensures |os| == |items| && os[i].job == Job(i, items[i])
    ensures os[i].HeldBack? <==> items[i].source == Mempool && FailsBefore(items, mine, i)
    ensures os[i].Tried? ==> os[i].crawl == mine(i)
  {
    var l, p := Place(items, i);
    var lane := LanesOf(items)[l];
    assert os[lane[p].index] == LaneOutcome(mine, lane, p);
    BlockedExactly(mine, lane, p);
    hide LanesOf, BlockedAfter, LaneKey, JobsOf;
    if items[i].source == Mempool {
      FailsInLane(items, mine, lane, p);
    } else {
      NeverBlocked(items, mine, lane, p);
    }
  }

  // ---------------------------------------------------------------- pages and proofs

  /** The crawled pages with their items, in item order. */
  function Pages(os: seq<MineOutcome>): seq<(WorkItem, string)> {
    if os == [] then []
    else
      Pages(os[..|os| - 1]) +
      match os[|os| - 1]
      case Tried(job, Mined(page)) => [(job.item, page)]
      case _ => []
  }

  /** The entries of those items that came from the pool, in item order. */
  function PoolEntries(pages: seq<(WorkItem, string)>): seq<Entry> {
    if pages == [] then []
    else
      var item := pages[|pages| - 1].0;
      PoolEntries(pages[..|pages| - 1]) + if item.source == Mempool then [item.entry] else []
  }

  lemma PoolEntriesNext(pages: seq<(WorkItem, string)>, item: WorkItem, page: string)
    ensures PoolEntries(pages + [(item, page)])
         == PoolEntries(pages) + if item.source == Mempool then [item.entry] else []
  {
    assert (pages + [(item, page)])[..|pages|] == pages;
  }

  /** A tick builds a proof from every crawled page and no other, and carries the pool tasks among them. */
  lemma {:induction false} ProofsExactly(failures: map<string, nat>, os: seq<MineOutcome>, terminal: string -> bool)
    ensures var r := RouteAll(Fresh(failures), os, terminal);
      r.proofs == Pages(os) && r.mined == PoolEntries(Pages(os))
    decreases |os|
  {
    if os != [] {
      var n := |os| - 1;
      ProofsExactly(failures, os[..n], terminal);
      var before := RouteAll(Fresh(failures), os[..n], terminal);
      RoutePages(before, os[n], terminal);
      if os[n].Tried? && os[n].crawl.Mined? {
        PoolEntriesNext(Pages(os[..n]), os[n].job.item, os[n].crawl.page);
      }
    }
    hide Route;
  }

  lemma RoutePages(r: Routed, o: MineOutcome, terminal: string -> bool)
    ensures var t := Route(r, o, terminal);
      if o.Tried? && o.crawl.Mined? then
        && t.proofs == r.proofs + [(o.job.item, o.crawl.page)]
        && t.mined == r.mined + if o.job.item.source == Mempool then [o.job.item.entry] else []
      else t.proofs == r.proofs && t.mined == r.mined
  {
    hide PastCutoff, Lowered, Counted;
  }
}
