/** Fixed-window rate limiting per key: what pruning may forget, and how many requests a window lets through. */
module Windows {
  import opened Text

  /** When a key's window opened and how many requests it has admitted. */
  datatype Window = Window(start: int, count: int)

  /** A request that reached the counting part of a limiter, with the limit in force for it. */
  datatype Request = Request(key: string, at: int, limit: int)

  predicate Lapsed(width: int, entries: map<string, Window>, key: string, now: int) {
    key !in entries || now - entries[key].start >= width
  }

  predicate Admits(width: int, entries: map<string, Window>, r: Request) {
    Lapsed(width, entries, r.key, r.at) || entries[r.key].count < r.limit
  }

  /** The entries after a request, when nothing is ever forgotten. */
  function Touch(width: int, entries: map<string, Window>, r: Request): map<string, Window> {
    if Lapsed(width, entries, r.key, r.at) then entries[r.key := Window(r.at, 1)]
    else if entries[r.key].count < r.limit then
      entries[r.key := entries[r.key].(count := entries[r.key].count + 1)]
    else entries
  }

  function Prune(width: int, entries: map<string, Window>, now: int): map<string, Window> {
    map k | k in entries && now - entries[k].start < width :: entries[k]
  }

  /** The entries after a request as the limiters keep them: opening a window drops every lapsed one. */
  function TouchAndPrune(width: int, entries: map<string, Window>, r: Request): map<string, Window> {
    if Lapsed(width, entries, r.key, r.at) then Prune(width, Touch(width, entries, r), r.at)
    else Touch(width, entries, r)
  }

  /** The entries after a run of requests, unpruned. */
  function Full(width: int, run: seq<Request>): map<string, Window> {
    if run == [] then map[] else Touch(width, Full(width, run[..|run| - 1]), run[|run| - 1])
  }

  /** The entries after a run of requests, pruned. */
  function Kept(width: int, run: seq<Request>): map<string, Window> {
    if run == [] then map[] else TouchAndPrune(width, Kept(width, run[..|run| - 1]), run[|run| - 1])
  }

  /** The clock never goes back along the run. */
  predicate Ordered(run: seq<Request>) {
    forall i, j :: 0 <= i < j < |run| ==> run[i].at <= run[j].at
  }

  /** Requests of `key` that the pruned limiter admitted at times from `from` to `until`, both included. */
  function Admitted(width: int, run: seq<Request>, key: string, from: int, until: int): (n: int)
    ensures n >= 0
  {
    if run == [] then 0
    else
      var before, r := run[..|run| - 1], run[|run| - 1];
      Admitted(width, before, key, from, until)
      + if r.key == key && from <= r.at <= until && Admits(width, Kept(width, before), r) then 1 else 0
  }

  /** Admissions of `key` within one window length of `t`, both ends included. */
  function AdmittedFrom(width: int, run: seq<Request>, key: string, t: int): int {
    Admitted(width, run, key, t, t + width)
  }

  predicate LimitedTo(run: seq<Request>, key: string, limit: int) {
    forall i :: 0 <= i < |run| && run[i].key == key ==> run[i].limit <= limit
  }

  /** Pruned entries agree with the unpruned ones, and whatever is missing had lapsed by the time `now`. */
  predicate Forgets(width: int, kept: map<string, Window>, full: map<string, Window>, now: int) {
    (forall k :: k in kept ==> k in full && full[k] == kept[k])
    && (forall k :: k in full && k !in kept ==> now - full[k].start >= width)
  }

  /** One request keeps the two in step, and both give it the same answer. */
  lemma StepForgets(width: int, kept: map<string, Window>, full: map<string, Window>, before: int, r: Request)
    requires width > 0 && Forgets(width, kept, full, before) && before <= r.at
    ensures Admits(width, kept, r) == Admits(width, full, r)
    ensures Forgets(width, TouchAndPrune(width, kept, r), Touch(width, full, r), r.at)
  {
    assert Lapsed(width, kept, r.key, r.at) == Lapsed(width, full, r.key, r.at);
    var kept', full' := TouchAndPrune(width, kept, r), Touch(width, full, r);
    forall k | k in full' && k !in kept' ensures r.at - full'[k].start >= width {
      if k != r.key {
        assert full[k] == full'[k];
        if k in kept { assert full[k] == kept[k]; }
      }
    }
  }

  lemma {:induction false} RunForgets(width: int, run: seq<Request>, now: int)
    requires width > 0 && Ordered(run) && (run != [] ==> run[|run| - 1].at == now)
    ensures Forgets(width, Kept(width, run), Full(width, run), now)
  {
    if run != [] {
      var before := run[..|run| - 1];
      var earlier := if before == [] then now else before[|before| - 1].at;
      RunForgets(width, before, earlier);
      StepForgets(width, Kept(width, before), Full(width, before), earlier, run[|run| - 1]);
    }
  }

  /** Under a clock that never goes back, forgetting lapsed windows changes no answer. */
  lemma PruningIsInvisible(width: int, run: seq<Request>, r: Request)
    requires width > 0 && Ordered(run + [r])
    ensures Admits(width, Kept(width, run), r) == Admits(width, Full(width, run), r)
  {
    assert Ordered(run) by {
      forall i, j | 0 <= i < j < |run| ensures run[i].at <= run[j].at {
        assert (run + [r])[i].at <= (run + [r])[j].at;
      }
    }
    var last := if run == [] then r.at else run[|run| - 1].at;
    assert last <= r.at by {
      if run != [] { assert (run + [r])[|run| - 1].at <= (run + [r])[|run|].at; }
    }
    RunForgets(width, run, last);
    StepForgets(width, Kept(width, run), Full(width, run), last, r);
  }

  // ---------------------------------------------------------------- when pruning shows, under any clock

  /** Both entries answer every key and every limit alike at a time. */
  ghost predicate SameAnswers(width: int, kept: map<string, Window>, full: map<string, Window>, now: int) {
    forall key, limit :: limit > 0 ==>
      (Admits(width, kept, Request(key, now, limit)) <==> Admits(width, full, Request(key, now, limit)))
  }

  /** Every forgotten window has lapsed at a time. */
  ghost predicate ForgottenLapsed(width: int, kept: map<string, Window>, full: map<string, Window>, now: int) {
    forall k :: k in full && k !in kept ==> now - full[k].start >= width
  }

  ghost predicate AgreeOnKept(kept: map<string, Window>, full: map<string, Window>) {
    && (forall k :: k in kept ==> k in full && full[k] == kept[k])
    && (forall k :: k in full ==> full[k].count >= 1)
  }

  /** At one time: pruning shows in no answer if and only if every forgotten window has lapsed. */
  lemma SameAnswersExactly(width: int, kept: map<string, Window>, full: map<string, Window>, now: int)
    requires AgreeOnKept(kept, full)
    ensures SameAnswers(width, kept, full, now) <==> ForgottenLapsed(width, kept, full, now)
  {
    if SameAnswers(width, kept, full, now) {
      forall k | k in full && k !in kept
        ensures now - full[k].start >= width
      {
        var r := Request(k, now, full[k].count);
        assert Admits(width, kept, r) && full[k].count > 0;
      }
    }
  }

  ghost predicate SameAt(width: int, run: seq<Request>, i: nat)
    requires i < |run|
  {
    SameAnswers(width, Kept(width, run[..i]), Full(width, run[..i]), run[i].at)
  }

  ghost predicate LapsedAt(width: int, run: seq<Request>, i: nat)
    requires i < |run|
  {
    ForgottenLapsed(width, Kept(width, run[..i]), Full(width, run[..i]), run[i].at)
  }

  /** No request of the run comes at a time when a forgotten window has not lapsed. */
  ghost predicate NeverEarly(width: int, run: seq<Request>) {
    forall i :: 0 <= i < |run| ==> LapsedAt(width, run, i)
  }

  ghost predicate NeverShows(width: int, run: seq<Request>) {
    forall i :: 0 <= i < |run| ==> SameAt(width, run, i)
  }

  lemma PrefixAnswers(width: int, run: seq<Request>, n: nat, i: nat)
    requires i < n <= |run|
    ensures SameAt(width, run[..n], i) == SameAt(width, run, i)
    ensures LapsedAt(width, run[..n], i) == LapsedAt(width, run, i)
  {
    assert run[..n][..i] == run[..i];
  }

  /** Requests at times when all forgotten windows have lapsed keep the pruned and the unpruned entries in step. */
  lemma {:induction false} NeverEarlyAgrees(width: int, run: seq<Request>)
    requires width > 0 && NeverEarly(width, run)
    ensures AgreeOnKept(Kept(width, run), Full(width, run))
  {
    if run != [] {
      var n := |run| - 1;
      forall i | 0 <= i < n
        ensures LapsedAt(width, run[..n], i)
      {
        PrefixAnswers(width, run, n, i);
      }
      NeverEarlyAgrees(width, run[..n]);
      assert LapsedAt(width, run, n);
      StepAgrees(width, Kept(width, run[..n]), Full(width, run[..n]), run[n]);
    }
  }

  lemma StepAgrees(width: int, kept: map<string, Window>, full: map<string, Window>, r: Request)
    requires width > 0 && AgreeOnKept(kept, full) && ForgottenLapsed(width, kept, full, r.at)
    ensures Lapsed(width, kept, r.key, r.at) == Lapsed(width, full, r.key, r.at)
    ensures AgreeOnKept(TouchAndPrune(width, kept, r), Touch(width, full, r))
  {
  }

  /**
   Over a whole run, whatever its clock: pruning shows in no answer, to any key and any limit,
   if and only if no request comes at a time when a forgotten window has not lapsed.
   */
  lemma {:induction false} PruningShowsExactly(width: int, run: seq<Request>)
    requires width > 0
    ensures NeverShows(width, run) <==> NeverEarly(width, run)
  {
    if run != [] {
      var n := |run| - 1;
      PruningShowsExactly(width, run[..n]);
      forall i | 0 <= i < n
        ensures SameAt(width, run[..n], i) == SameAt(width, run, i)
        ensures LapsedAt(width, run[..n], i) == LapsedAt(width, run, i)
      {
        PrefixAnswers(width, run, n, i);
      }
      hide SameAt, LapsedAt;
      if NeverEarly(width, run[..n]) {
        NeverEarlyAgrees(width, run[..n]);
        LastAnswer(width, run);
      }
    }
  }

  lemma LastAnswer(width: int, run: seq<Request>)
    requires run != [] && AgreeOnKept(Kept(width, run[..|run| - 1]), Full(width, run[..|run| - 1]))
    ensures SameAt(width, run, |run| - 1) == LapsedAt(width, run, |run| - 1)
  {
    var before := run[..|run| - 1];
    SameAnswersExactly(width, Kept(width, before), Full(width, before), run[|run| - 1].at);
  }

  /** The run has opened no window, and so pruned nothing, after the time `latest`. */
  ghost predicate PrunedBy(width: int, run: seq<Request>, latest: int) {
    forall i :: 0 <= i < |run| && Opens(width, run, i) ==> run[i].at <= latest
  }

  ghost predicate Opens(width: int, run: seq<Request>, i: nat)
    requires i < |run|
  {
    Lapsed(width, Kept(width, run[..i]), run[i].key, run[i].at)
  }

  /** A forgotten window had lapsed by the latest pruning. */
  lemma {:induction false} ForgottenByLatest(width: int, run: seq<Request>, latest: int)
    requires width > 0 && NeverEarly(width, run) && PrunedBy(width, run, latest)
    ensures ForgottenLapsed(width, Kept(width, run), Full(width, run), latest)
  {
    if run != [] {
      var n := |run| - 1;
      var before := run[..n];
      forall i | 0 <= i < n
        ensures LapsedAt(width, before, i) && Opens(width, before, i) == Opens(width, run, i)
      {
        PrefixAnswers(width, run, n, i);
        assert before[..i] == run[..i];
      }
      hide LapsedAt;
      ForgottenByLatest(width, before, latest);
      NeverEarlyAgrees(width, before);
      LastLapsed(width, run);
      StepAgrees(width, Kept(width, before), Full(width, before), run[n]);
      assert Opens(width, run, n) ==> run[n].at <= latest;
      hide Kept, Full, PrunedBy, NeverEarly;
      StepForgotten(width, Kept(width, before), Full(width, before), run[n], latest);
      KeptStep(width, run);
    }
  }

  lemma LastLapsed(width: int, run: seq<Request>)
    requires run != [] && NeverEarly(width, run)
    ensures ForgottenLapsed(width, Kept(width, run[..|run| - 1]), Full(width, run[..|run| - 1]), run[|run| - 1].at)
  {
    assert LapsedAt(width, run, |run| - 1);
  }

  lemma KeptStep(width: int, run: seq<Request>)
    requires run != []
    ensures var before, r := run[..|run| - 1], run[|run| - 1];
      && Kept(width, run) == TouchAndPrune(width, Kept(width, before), r)
      && Full(width, run) == Touch(width, Full(width, before), r)
  {
  }

  lemma StepForgotten(width: int, kept: map<string, Window>, full: map<string, Window>, r: Request, latest: int)
    requires width > 0 && AgreeOnKept(kept, full) && ForgottenLapsed(width, kept, full, latest)
    requires ForgottenLapsed(width, kept, full, r.at)
    requires Lapsed(width, kept, r.key, r.at) ==> r.at <= latest
    ensures ForgottenLapsed(width, TouchAndPrune(width, kept, r), Touch(width, full, r), latest)
  {
  }

  /**
   What a caller can check: with no pruning after `latest`, the answers at `now` are safe in
   every such history if and only if the clock has not gone back behind `latest`.
   */
  lemma LatestPruningIsExact(width: int, latest: int, now: int)
    requires width > 0
    ensures now >= latest
       <==> forall run :: NeverEarly(width, run) && PrunedBy(width, run, latest)
              ==> SameAnswers(width, Kept(width, run), Full(width, run), now)
  {
    if now >= latest {
      forall run | NeverEarly(width, run) && PrunedBy(width, run, latest)
        ensures SameAnswers(width, Kept(width, run), Full(width, run), now)
      {
        ForgottenByLatest(width, run, latest);
        NeverEarlyAgrees(width, run);
        SameAnswersExactly(width, Kept(width, run), Full(width, run), now);
      }
    } else {
      var run := ClockGoingBackShowsPruning(width, latest, now);
    }
  }

  /**
   Whenever the clock goes back behind the latest pruning, some history shows it: the pruned
   limiter admits a request that the unpruned one refuses.
   */
  lemma ClockGoingBackShowsPruning(width: int, latest: int, now: int) returns (run: seq<Request>)
    requires width > 0 && now < latest
    ensures NeverEarly(width, run) && PrunedBy(width, run, latest)
    ensures Admits(width, Kept(width, run), Request("a", now, 1))
    ensures !Admits(width, Full(width, run), Request("a", now, 1))
    ensures !SameAnswers(width, Kept(width, run), Full(width, run), now)
  {
    var first, second := Request("a", latest - width, 1), Request("b", latest, 1);
    run := [first, second];
    assert run[..0] == [] && run[..1] == [first] && run[..1][..0] == [];
    assert Full(width, run[..1]) == map["a" := Window(latest - width, 1)];
    assert Kept(width, run[..1]) == map["a" := Window(latest - width, 1)];
    assert Kept(width, run) == map["b" := Window(latest, 1)];
    assert Full(width, run)["a"] == Window(latest - width, 1);
    assert LapsedAt(width, run, 0) && LapsedAt(width, run, 1);
  }

  /** What a key's current window says about the admissions from `t` to `t + width` so far. */
  predicate Budget(width: int, limit: int, full: map<string, Window>, key: string, now: int, t: int, admitted: int) {
    if key !in full then admitted == 0
    else
      var w := full[key];
      && 1 <= w.count <= limit && w.start <= now
      && (admitted > 0 ==> t < w.start + width)
      && admitted <= (if w.start <= t then w.count else if w.start <= t + width then limit + w.count else 2 * limit)
  }

  lemma {:induction false} RunKeepsBudget(width: int, run: seq<Request>, key: string, limit: int, now: int, t: int)
    requires width > 0 && limit > 0 && Ordered(run) && LimitedTo(run, key, limit)
    requires run != [] ==> run[|run| - 1].at == now
    ensures Budget(width, limit, Full(width, run), key, now, t, Admitted(width, run, key, t, t + width))
  {
    if run != [] {
      var before, r := run[..|run| - 1], run[|run| - 1];
      var earlier := if before == [] then now else before[|before| - 1].at;
      RunKeepsBudget(width, before, key, limit, earlier, t);
      assert run == before + [r];
      PruningIsInvisible(width, before, r);
    }
  }

  /** No interval of one window length, both ends included, holds more than twice the limit of admissions of a key. */
  lemma TwiceTheLimit(width: int, run: seq<Request>, key: string, limit: int, t: int)
    requires width > 0 && limit > 0 && Ordered(run) && LimitedTo(run, key, limit)
    ensures AdmittedFrom(width, run, key, t) <= 2 * limit
  {
    var now := if run == [] then 0 else run[|run| - 1].at;
    RunKeepsBudget(width, run, key, limit, now, t);
  }

  /** `n` requests of one key at one time. */
  function Burst(key: string, at: int, limit: int, n: nat): (run: seq<Request>)
    ensures |run| == n && forall i :: 0 <= i < n ==> run[i] == Request(key, at, limit)
  {
    seq(n, i => Request(key, at, limit))
  }

  /** A request that opens or fits its key's window is admitted and counted. */
  lemma OneMore(width: int, run: seq<Request>, r: Request, from: int, until: int)
    requires Admits(width, Kept(width, run), r) && from <= r.at <= until && width > 0
    ensures Admitted(width, run + [r], r.key, from, until) == Admitted(width, run, r.key, from, until) + 1
    ensures Kept(width, run + [r]) == TouchAndPrune(width, Kept(width, run), r)
  {
    assert (run + [r])[..|run + [r]| - 1] == run;
  }

  /** A burst that opens a window is admitted whole, up to the limit. */
  lemma {:induction false} BurstIsAdmitted(width: int, run: seq<Request>, key: string, at: int, limit: int, n: nat,
                                           from: int, until: int)
    requires width > 0 && n <= limit && from <= at <= until && Lapsed(width, Kept(width, run), key, at)
    ensures
      var whole := run + Burst(key, at, limit, n);
      && Admitted(width, whole, key, from, until) == Admitted(width, run, key, from, until) + n
      && (n > 0 ==> key in Kept(width, whole) && Kept(width, whole)[key] == Window(at, n))
  {
    if n == 0 {
      assert run + Burst(key, at, limit, n) == run;
    } else {
      BurstIsAdmitted(width, run, key, at, limit, n - 1, from, until);
      var shorter, r := run + Burst(key, at, limit, n - 1), Request(key, at, limit);
      assert n == 1 ==> shorter == run;
      assert run + Burst(key, at, limit, n) == shorter + [r];
      hide Kept, Admitted, Burst;
      OneMore(width, shorter, r, from, until);
    }
  }

  lemma AtRest(width: int, key: string, from: int, until: int)
    ensures Kept(width, []) == map[] && Admitted(width, [], key, from, until) == 0
  {
  }

  /** Two bursts of the full limit, one when a window opens and one when it lapses. */
  function TwoBursts(width: int, key: string, limit: nat): (run: seq<Request>)
    requires width > 0
    ensures Ordered(run) && LimitedTo(run, key, limit)
  {
    Burst(key, 0, limit, limit) + Burst(key, width, limit, limit)
  }

  /** The bound is attained for every limit and every window length. */
  lemma TwiceTheLimitIsAttained(width: int, key: string, limit: nat)
    requires width > 0 && limit > 0
    ensures AdmittedFrom(width, TwoBursts(width, key, limit), key, 0) == 2 * limit
  {
    var opening := Burst(key, 0, limit, limit);
    AtRest(width, key, 0, width);
    hide Kept, Admitted, Ordered, LimitedTo;
    BurstIsAdmitted(width, [], key, 0, limit, limit, 0, width);
    assert [] + opening == opening;
    BurstIsAdmitted(width, opening, key, width, limit, limit, 0, width);
  }

  /**
   What one counted request does. A key without a window, or with a lapsed one, is let in and starts a new
   one, and all lapsed windows go. In a running window it is let in and counted up to the limit; a
   request beyond that is refused and changes nothing.
   */
  ghost predicate OneRequest(width: int, limit: int, before: map<string, Window>, key: string, now: int,
                             after: map<string, Window>, ok: bool)
  {
    if key !in before || now - before[key].start >= width then
      && ok && key in after && after[key] == Window(now, 1)
      && forall k :: k != key ==>
           && (k in after <==> k in before && now - before[k].start < width)
           && (k in after ==> after[k] == before[k])
    else if before[key].count < limit then
      ok && after == before[key := Window(before[key].start, before[key].count + 1)]
    else !ok && after == before
  }

  method PruneEntries(width: int, entries: map<string, Window>, now: int) returns (kept: map<string, Window>)
    ensures kept == Prune(width, entries, now)
  {
    kept := entries;
    var pending := entries.Keys;
    while pending != {}
      invariant pending <= entries.Keys
      invariant forall k :: k in kept <==> k in entries && (k in pending || now - entries[k].start < width)
      invariant forall k :: k in kept ==> kept[k] == entries[k]
      decreases pending
    {
      var k :| k in pending;
      pending := pending - {k};
      if now - entries[k].start >= width { kept := kept - {k}; }
    }
  }

  /** The per-peer limiter; `run` is the history of requests that reached the counters. */
  class PeerWindowLimiter {
    const limit: int
    const width: int
    var entries: map<string, Window>
    ghost var run: seq<Request>

    ghost predicate Valid()
      reads this
    {
      width > 0 ==> entries == Kept(width, run)
    }

    constructor (limit: int, width: int)
      ensures Valid() && this.limit == limit && this.width == width && run == []
    {
      this.limit, this.width, entries, run := limit, width, map[], [];
    }

    /** The limit for one call: the caller's own when it is positive and tighter. */
    function Effective(callLimit: int): (r: int)
      ensures limit > 0 ==> 0 < r <= limit
      ensures callLimit > 0 ==> 0 < r <= callLimit
      ensures limit <= 0 && callLimit <= 0 ==> r <= 0
      ensures r == limit || r == callLimit
    {
      if callLimit > 0 && (limit <= 0 || callLimit < limit) then callLimit else limit
    }

    method AllowWithLimit(id: string, now: int, callLimit: int) returns (ok: bool)
      requires Valid()
      modifies this
      ensures Valid()
      ensures width <= 0 || id == "" || Effective(callLimit) <= 0 ==>
        ok == (width <= 0 || id != "") && entries == old(entries) && run == old(run)
      ensures width > 0 && id != "" && Effective(callLimit) > 0 ==>
        var r := Request(id, now, Effective(callLimit));
        run == old(run) + [r]
        && OneRequest(width, Effective(callLimit), old(entries), id, now, entries, ok)
        && ok == Admits(width, Kept(width, old(run)), r)
        && (Ordered(run) ==> ok == Admits(width, Full(width, old(run)), r))
        && (forall key, most, t ::
              Ordered(run) && LimitedTo(run, key, most) && most > 0 ==> AdmittedFrom(width, run, key, t) <= 2 * most)
    {
      if width <= 0 { return true; }
      if id == "" { return false; }
      var effective := Effective(callLimit);
      if effective <= 0 { return true; }
      ghost var r := Request(id, now, effective);
      if id !in entries || now - entries[id].start >= width {
        entries := entries[id := Window(now, 1)];
        entries := PruneEntries(width, entries, now);
        ok := true;
      } else if entries[id].count >= effective {
        ok := false;
      } else {
        entries := entries[id := Window(entries[id].start, entries[id].count + 1)];
        ok := true;
      }
      run := run + [r];
      assert run[..|run| - 1] == old(run);
      if Ordered(run) { PruningIsInvisible(width, old(run), r); }
      forall key, most, t | Ordered(run) && LimitedTo(run, key, most) && most > 0
        ensures AdmittedFrom(width, run, key, t) <= 2 * most
      {
        TwiceTheLimit(width, run, key, most, t);
      }
    }

    method Allow(id: string, now: int) returns (ok: bool)
      requires Valid()
      modifies this
      ensures Valid()
      ensures width > 0 && id == "" ==> !ok
      ensures width <= 0 || (limit <= 0 && id != "") ==> ok
      ensures width > 0 && id != "" && limit > 0 ==>
        run == old(run) + [Request(id, now, limit)]
        && ok == Admits(width, Kept(width, old(run)), Request(id, now, limit))
    {
      ok := AllowWithLimit(id, now, 0);
    }
  }

  predicate AllLimited(run: seq<Request>, limit: int) {
    forall i :: 0 <= i < |run| ==> run[i].limit == limit
  }

  lemma AllWithinTwice(width: int, run: seq<Request>, limit: int)
    requires width > 0 && limit > 0 && Ordered(run) && AllLimited(run, limit)
    ensures forall key, t :: AdmittedFrom(width, run, key, t) <= 2 * limit
  {
    forall key, t ensures AdmittedFrom(width, run, key, t) <= 2 * limit {
      TwiceTheLimit(width, run, key, limit, t);
    }
  }

  /** The counter a client address is charged to. */
  function CounterOf(address: string): string {
    if Trim(address) == "" then "unknown" else address
  }

  /** The limiter of the RPC server: one limit for all clients, and blank addresses share one counter. */
  class ClientWindowLimiter {
    const limit: int
    const width: int
    var clients: map<string, Window>
    ghost var run: seq<Request>

    ghost predicate Valid()
      reads this
    {
      && (width > 0 ==> clients == Kept(width, run))
      && AllLimited(run, limit)
    }

    constructor (limit: int, width: int)
      ensures Valid() && this.limit == limit && this.width == width && run == []
    {
      this.limit, this.width, clients, run := limit, width, map[], [];
    }

    method Allow(address: string, now: int) returns (ok: bool)
      requires Valid()
      modifies this
      ensures Valid()
      ensures limit <= 0 || width <= 0 ==> ok && clients == old(clients) && run == old(run)
      ensures limit > 0 && width > 0 ==>
        var counter := if Trim(address) == "" then "unknown" else address;
        var r := Request(counter, now, limit);
        run == old(run) + [r]
        && OneRequest(width, limit, old(clients), counter, now, clients, ok)
        && ok == Admits(width, Kept(width, old(run)), r)
        && (Ordered(run) ==> ok == Admits(width, Full(width, old(run)), r))
        && (Ordered(run) ==> forall key, t :: AdmittedFrom(width, run, key, t) <= 2 * limit)
    {
      hide Admitted, Full, AdmittedFrom, Trim;
      if limit <= 0 || width <= 0 { return true; }
      var key := CounterOf(address);
      ghost var r := Request(key, now, limit);
      if key !in clients || now - clients[key].start >= width {
        clients := clients[key := Window(now, 1)];
        clients := PruneEntries(width, clients, now);
        ok := true;
      } else if clients[key].count >= limit {
        ok := false;
      } else {
        clients := clients[key := Window(clients[key].start, clients[key].count + 1)];
        ok := true;
      }
      run := run + [r];
      assert run[..|run| - 1] == old(run);
      if Ordered(run) {
        PruningIsInvisible(width, old(run), r);
        AllWithinTwice(width, run, limit);
      }
    }
  }
}
