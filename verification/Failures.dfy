/** What a tick makes of failed crawls: the count kept per task, and when a task is given up. */
module Failures {
  import opened Records
  import opened Pools
  import opened Lanes
  import opened Routing

  function HashOf(o: MineOutcome): string {
    o.job.item.entry.tx.hash
  }

  /** No other outcome is of a task with the same hash. */
  ghost predicate Alone(os: seq<MineOutcome>, i: nat)
    requires i < |os|
  {
    forall j :: 0 <= j < |os| && j != i ==> HashOf(os[j]) != HashOf(os[i])
  }

  ghost predicate Absent(os: seq<MineOutcome>, hash: string) {
    forall j :: 0 <= j < |os| ==> HashOf(os[j]) != hash
  }

  ghost predicate SameCount(before: map<string, nat>, after: map<string, nat>, hash: string) {
    (hash in before <==> hash in after) && (hash in before ==> after[hash] == before[hash])
  }

  /**
   What becomes of one task. A crawled one has no count. A failed one is given up at its third failure in a
   row, or at once for a terminal reason: it is quarantined, if it came from the pool, and has no
   count. Else it goes back to the pool, if it came from there, with one more counted. A task
   held back keeps its count.
   */
  ghost predicate SettledRight(before: map<string, nat>, after: map<string, nat>, quarantined: seq<Entry>,
                               back: seq<Entry>, o: MineOutcome, terminal: string -> bool)
  {
    var x := o.job.item.entry;
    var pooled, hash := o.job.item.source == Mempool, x.tx.hash;
    match o
    case HeldBack(_, _) => SameCount(before, after, hash)
    case Tried(_, Mined(_)) => hash !in after
    case Tried(_, Failed(reason)) =>
      var earlier := if hash in before then before[hash] else 0;
      if terminal(reason) || earlier >= 2 then
        hash !in after && (pooled ==> x in quarantined && x !in back)
      else
        hash in after && after[hash] == earlier + 1 && (pooled ==> x in back && x !in quarantined)
  }

  // ---------------------------------------------------------------- one outcome

  lemma RouteElsewhere(r: Routed, o: MineOutcome, terminal: string -> bool, x: Entry)
    requires HashOf(o) != x.tx.hash
    ensures var t := Route(r, o, terminal);
      && SameCount(r.failures, t.failures, x.tx.hash)
      && (x in t.failed <==> x in r.failed) && (x in t.quarantined <==> x in r.quarantined)
  {
    hide PastCutoff, Lowered, Counted;
    assert x != o.job.item.entry;
  }

  lemma RouteHere(r: Routed, o: MineOutcome, terminal: string -> bool)
    requires o.job.item.entry !in r.failed && o.job.item.entry !in r.quarantined
    ensures var t := Route(r, o, terminal);
      SettledRight(r.failures, t.failures, t.quarantined, t.failed, o, terminal)
  {
    hide PastCutoff, Lowered;
  }

  // ---------------------------------------------------------------- all outcomes

  lemma {:induction false} AbsentUntouched(failures: map<string, nat>, os: seq<MineOutcome>,
                                           terminal: string -> bool, x: Entry)
    requires Absent(os, x.tx.hash)
    ensures var r := RouteAll(Fresh(failures), os, terminal);
      SameCount(failures, r.failures, x.tx.hash) && x !in r.failed && x !in r.quarantined
    decreases |os|
  {
    hide Route;
    if os != [] {
      var n := |os| - 1;
      AbsentUntouched(failures, os[..n], terminal, x);
      RouteElsewhere(RouteAll(Fresh(failures), os[..n], terminal), os[n], terminal, x);
    }
  }

  /** A count or a place that agrees with another for this task settles it alike. */
  lemma SettledAlike(before: map<string, nat>, before': map<string, nat>, after: map<string, nat>,
                     after': map<string, nat>, quarantined: seq<Entry>, quarantined': seq<Entry>,
                     back: seq<Entry>, back': seq<Entry>, o: MineOutcome, terminal: string -> bool)
    requires SettledRight(before, after, quarantined, back, o, terminal)
    requires SameCount(before, before', HashOf(o)) && SameCount(after, after', HashOf(o))
    requires o.job.item.entry in quarantined <==> o.job.item.entry in quarantined'
    requires o.job.item.entry in back <==> o.job.item.entry in back'
    ensures SettledRight(before', after', quarantined', back', o, terminal)
  {
  }

  /** Every task that stands alone among the outcomes is settled right. */
  lemma {:induction false} AllSettledRight(failures: map<string, nat>, os: seq<MineOutcome>,
                                           terminal: string -> bool, i: nat)
    requires i < |os| && Alone(os, i)
    ensures var r := RouteAll(Fresh(failures), os, terminal);
      SettledRight(failures, r.failures, r.quarantined, r.failed, os[i], terminal)
    decreases |os|
  {
    hide Route, SettledRight;
    var n := |os| - 1;
    var before := RouteAll(Fresh(failures), os[..n], terminal);
    var r := RouteAll(Fresh(failures), os, terminal);
    var x := os[i].job.item.entry;
    if i < n {
      assert Alone(os[..n], i);
      AllSettledRight(failures, os[..n], terminal, i);
      RouteElsewhere(before, os[n], terminal, x);
      SettledAlike(failures, failures, before.failures, r.failures, before.quarantined, r.quarantined,
                   before.failed, r.failed, os[i], terminal);
    } else {
      assert Absent(os[..n], x.tx.hash);
      AbsentUntouched(failures, os[..n], terminal, x);
      RouteHere(before, os[n], terminal);
      SettledAlike(before.failures, failures, r.failures, r.failures, r.quarantined, r.quarantined,
                   r.failed, r.failed, os[n], terminal);
    }
  }

  // ---------------------------------------------------------------- the counts

  /** Every task with a count failed once or twice since it was last crawled. */
  ghost predicate OnceOrTwice(failures: map<string, nat>) {
    forall h :: h in failures ==> 1 <= failures[h] <= 2
  }

  lemma {:induction false} CountsStayLow(failures: map<string, nat>, os: seq<MineOutcome>, terminal: string -> bool)
    requires OnceOrTwice(failures)
    ensures OnceOrTwice(RouteAll(Fresh(failures), os, terminal).failures)
    decreases |os|
  {
    hide PastCutoff, Lowered;
    if os != [] {
      CountsStayLow(failures, os[..|os| - 1], terminal);
    }
  }

  // ---------------------------------------------------------------- a whole tick

  /**
   The counts before and after a tick, and where its tasks went. Tasks are settled right, a task that
   the tick did not touch keeps its count, and no count ever reaches three.
   */
  ghost predicate CountsRight(before: map<string, nat>, after: map<string, nat>, quarantined: seq<Entry>,
                              back: seq<Entry>, os: seq<MineOutcome>, terminal: string -> bool)
  {
    && (forall i :: 0 <= i < |os| && Alone(os, i) ==>
          SettledRight(before, after, quarantined, back, os[i], terminal))
    && (forall hash :: Absent(os, hash) ==> SameCount(before, after, hash))
    && (OnceOrTwice(before) ==> OnceOrTwice(after))
  }

  lemma RoutingCountsRight(failures: map<string, nat>, os: seq<MineOutcome>, terminal: string -> bool)
    ensures var r := RouteAll(Fresh(failures), os, terminal);
      CountsRight(failures, r.failures, r.quarantined, r.failed, os, terminal)
  {
    hide *;
    var r := RouteAll(Fresh(failures), os, terminal);
    forall i | 0 <= i < |os| && Alone(os, i)
      ensures SettledRight(failures, r.failures, r.quarantined, r.failed, os[i], terminal)
    {
      AllSettledRight(failures, os, terminal, i);
    }
    forall hash | Absent(os, hash)
      ensures SameCount(failures, r.failures, hash)
    {
      NamedHash(hash);
      AbsentUntouched(failures, os, terminal, Named(hash));
    }
    if OnceOrTwice(failures) {
      CountsStayLow(failures, os, terminal);
    }
    CountsFrom(failures, r.failures, r.quarantined, r.failed, os, terminal);
  }

  /** Some entry with a given hash. */
  ghost function Named(hash: string): Entry {
    Entry(Transaction(hash, SearchTask, "", "", Plain(0), 0, 0, [], [], []), "")
  }

  lemma NamedHash(hash: string)
    ensures Named(hash).tx.hash == hash
  {
  }

  lemma CountsFrom(before: map<string, nat>, after: map<string, nat>, quarantined: seq<Entry>, back: seq<Entry>,
                   os: seq<MineOutcome>, terminal: string -> bool)
    requires forall i :: 0 <= i < |os| && Alone(os, i) ==>
      SettledRight(before, after, quarantined, back, os[i], terminal)
    requires forall hash :: Absent(os, hash) ==> SameCount(before, after, hash)
    requires OnceOrTwice(before) ==> OnceOrTwice(after)
    ensures CountsRight(before, after, quarantined, back, os, terminal)
  {
    hide SettledRight, Alone, Absent, SameCount, OnceOrTwice;
  }

  /** The same with what else the tick quarantines and puts back, as long as nothing is in both. */
  lemma CountsWiden(before: map<string, nat>, after: map<string, nat>, quarantined: seq<Entry>, back: seq<Entry>,
                    quarantined': seq<Entry>, back': seq<Entry>, os: seq<MineOutcome>, terminal: string -> bool)
    requires CountsRight(before, after, quarantined, back, os, terminal)
    requires (forall x :: x in quarantined ==> x in quarantined') && (forall x :: x in back ==> x in back')
    requires forall x :: x in quarantined' ==> x !in back'
    ensures CountsRight(before, after, quarantined', back', os, terminal)
  {
    forall i | 0 <= i < |os| && Alone(os, i)
      ensures SettledRight(before, after, quarantined', back', os[i], terminal)
    {
      assert SettledRight(before, after, quarantined, back, os[i], terminal);
    }
    hide SettledRight, Alone, Absent, SameCount, OnceOrTwice;
  }
}
