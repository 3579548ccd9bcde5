/** The two-level crawl semaphore: a global limit and a limit per host, under every interleaving. */
module CrawlLimits {
  import opened Records
  import opened Totals

  /** A limit that is not positive does not limit. */
  datatype Limits = Limits(total: int, perHost: int)

  /**
   Where a caller of `Acquire` stands. A `Releasing` one has given back its host permit but not yet
   its global one; `Done` callers hold nothing and never will again.
   */
  datatype Phase =
    | WaitGlobal(host: string)
    | WaitHost(host: string)
    | Holding(host: string)
    | Releasing(host: string)
    | Done

  /** The callers, the occupancy of the global channel and of each host's channel. */
  datatype LimiterState = LimiterState(callers: map<string, Phase>, totalUsed: int, hostUsed: map<string, int>)

  datatype Event =
    | Arrive(caller: string, host: string)
    | TakeGlobal(caller: string)
    | TakeHost(caller: string)
    | Cancel(caller: string)
    | Release(caller: string)
    | GiveBack(caller: string)

  predicate NeedsHost(limits: Limits, host: string) {
    limits.perHost > 0 && host != ""
  }

  function AfterGlobal(limits: Limits, host: string): Phase {
    if NeedsHost(limits, host) then WaitHost(host) else Holding(host)
  }

  /** Looking up a host's channel makes an empty one the first time. */
  function WithSlot(limits: Limits, used: map<string, int>, host: string): map<string, int> {
    if NeedsHost(limits, host) && host !in used then used[host := 0] else used
  }

  /** The caller goes on to its host's channel, if it needs one. */
  function PastGlobal(limits: Limits, s: LimiterState, c: string, host: string): LimiterState {
    s.(callers := s.callers[c := AfterGlobal(limits, host)], hostUsed := WithSlot(limits, s.hostUsed, host))
  }

  function HostCount(s: LimiterState, host: string): int {
    if host in s.hostUsed then s.hostUsed[host] else 0
  }

  function GlobalPermits(limits: Limits): int {
    if limits.total > 0 then 1 else 0
  }

  function HostPermits(limits: Limits, host: string): int {
    if NeedsHost(limits, host) then 1 else 0
  }

  /**
   Whether an event can happen now. Waiting callers may take a free slot or be cancelled. A second
   release returns only after the first is through.
   */
  predicate Enabled(limits: Limits, s: LimiterState, e: Event) {
    match e
    case Arrive(c, _) => c !in s.callers
    case TakeGlobal(c) => c in s.callers && s.callers[c].WaitGlobal? && s.totalUsed < limits.total
    case TakeHost(c) => c in s.callers && s.callers[c].WaitHost? && HostCount(s, s.callers[c].host) < limits.perHost
    case Cancel(c) => c in s.callers && (s.callers[c].WaitGlobal? || s.callers[c].WaitHost?)
    case Release(c) => c in s.callers && (s.callers[c].Holding? || s.callers[c].Done?)
    case GiveBack(c) => c in s.callers && s.callers[c].Releasing?
  }

  /**
   The effect of an event. A release receives from the host's channel and then, in a step of its own,
   from the global one; a second release does nothing; a cancel between the levels gives the global
   slot back.
   */
  function Apply(limits: Limits, s: LimiterState, e: Event): LimiterState
    requires Enabled(limits, s, e)
  {
    match e
    case Arrive(c, host) =>
      if limits.total > 0 then s.(callers := s.callers[c := WaitGlobal(host)]) else PastGlobal(limits, s, c, host)
    case TakeGlobal(c) =>
      PastGlobal(limits, s, c, s.callers[c].host).(totalUsed := s.totalUsed + 1)
    case TakeHost(c) =>
      var host := s.callers[c].host;
      s.(callers := s.callers[c := Holding(host)], hostUsed := s.hostUsed[host := HostCount(s, host) + 1])
    case Cancel(c) =>
      var used := if s.callers[c].WaitHost? then s.totalUsed - GlobalPermits(limits) else s.totalUsed;
      s.(callers := s.callers[c := Done], totalUsed := used)
    case Release(c) =>
      if s.callers[c].Done? then s
      else
        var host := s.callers[c].host;
        s.(callers := s.callers[c := Releasing(host)],
           hostUsed := if NeedsHost(limits, host) then s.hostUsed[host := HostCount(s, host) - 1] else s.hostUsed)
    case GiveBack(c) =>
      s.(callers := s.callers[c := Done], totalUsed := s.totalUsed - GlobalPermits(limits))
  }

  // ---------------------------------------------------------------- permits

  function HeldGlobal(limits: Limits): Phase -> int {
    (p: Phase) => if p.WaitHost? || p.Holding? || p.Releasing? then GlobalPermits(limits) else 0
  }

  function HeldHost(limits: Limits, host: string): Phase -> int {
    (p: Phase) => if p.Holding? && p.host == host then HostPermits(limits, host) else 0
  }

  ghost predicate GlobalFits(limits: Limits, s: LimiterState) {
    && s.totalUsed == Total(s.callers, HeldGlobal(limits))
    && (limits.total > 0 ==> s.totalUsed <= limits.total)
    && (forall c :: c in s.callers && s.callers[c].WaitHost? ==> NeedsHost(limits, s.callers[c].host))
    && (forall c :: c in s.callers && s.callers[c].WaitGlobal? ==> limits.total > 0)
  }

  ghost predicate HostFits(limits: Limits, s: LimiterState, host: string) {
    && HostCount(s, host) == Total(s.callers, HeldHost(limits, host))
    && (limits.perHost > 0 ==> HostCount(s, host) <= limits.perHost)
  }

  /** Channel occupancy is exactly what the callers hold, and within the limits. */
  ghost predicate LimiterInv(limits: Limits, s: LimiterState) {
    GlobalFits(limits, s) && forall host: string :: HostFits(limits, s, host)
  }

  lemma EventKeepsGlobal(limits: Limits, s: LimiterState, e: Event)
    requires GlobalFits(limits, s) && Enabled(limits, s, e)
    ensures GlobalFits(limits, Apply(limits, s, e))
  {
    var t := Apply(limits, s, e);
    TotalPut(s.callers, HeldGlobal(limits), e.caller, t.callers[e.caller]);
    assert t.callers == s.callers[e.caller := t.callers[e.caller]];
  }

  lemma EventKeepsHost(limits: Limits, s: LimiterState, e: Event, host: string)
    requires GlobalFits(limits, s) && HostFits(limits, s, host) && Enabled(limits, s, e)
    ensures HostFits(limits, Apply(limits, s, e), host)
  {
    var t := Apply(limits, s, e);
    TotalPut(s.callers, HeldHost(limits, host), e.caller, t.callers[e.caller]);
    assert t.callers == s.callers[e.caller := t.callers[e.caller]];
  }

  lemma EventKeepsInv(limits: Limits, s: LimiterState, e: Event)
    requires LimiterInv(limits, s) && Enabled(limits, s, e)
    ensures LimiterInv(limits, Apply(limits, s, e))
  {
    hide GlobalFits, HostFits, Enabled, Apply;
    EventKeepsGlobal(limits, s, e);
    forall host: string
      ensures HostFits(limits, Apply(limits, s, e), host)
    {
      EventKeepsHost(limits, s, e, host);
    }
  }

  // ---------------------------------------------------------------- runs

  const EMPTY := LimiterState(map[], 0, map[])

  /** The state after an interleaving of events, if each was possible when it happened. */
  ghost function RunEvents(limits: Limits, events: seq<Event>): Option<LimiterState>
    decreases |events|
  {
    if events == [] then Some(EMPTY)
    else
      var before, e := RunEvents(limits, events[..|events| - 1]), events[|events| - 1];
      if before.Some? && Enabled(limits, before.value, e) then Some(Apply(limits, before.value, e)) else None
  }

  /** Under every interleaving the holders stay within both limits and the channels count exactly the holders. */
  lemma {:induction false} RunKeepsInv(limits: Limits, events: seq<Event>)
    requires RunEvents(limits, events).Some?
    ensures LimiterInv(limits, RunEvents(limits, events).value)
    decreases |events|
  {
    hide LimiterInv, Enabled, Apply;
    if events == [] {
      EmptyInv(limits);
    } else {
      RunKeepsInv(limits, events[..|events| - 1]);
      EventKeepsInv(limits, RunEvents(limits, events[..|events| - 1]).value, events[|events| - 1]);
    }
  }

  lemma EmptyInv(limits: Limits)
    ensures LimiterInv(limits, EMPTY)
  {
  }

  lemma {:induction false} SomePositive<V>(m: map<string, V>, weight: V -> int) returns (k: string)
    requires Total(m, weight) > 0
    ensures k in m && weight(m[k]) > 0
    decreases m.Keys
  {
    k := Pick(m);
    TotalSplit(m, weight, k);
    if weight(m[k]) <= 0 {
      k := SomePositive(m - {k}, weight);
    }
  }

  /** No caller can take a slot. */
  ghost predicate Blocked(limits: Limits, s: LimiterState) {
    forall c :: !Enabled(limits, s, TakeGlobal(c)) && !Enabled(limits, s, TakeHost(c))
  }

  ghost predicate Waiting(s: LimiterState, c: string) {
    c in s.callers && (s.callers[c].WaitGlobal? || s.callers[c].WaitHost?)
  }

  /** The caller's release, from wherever it stands in it, run to its end. */
  function Released(limits: Limits, s: LimiterState, c: string): LimiterState
    requires c in s.callers && (s.callers[c].Holding? || s.callers[c].Releasing?)
  {
    Apply(limits, if s.callers[c].Holding? then Apply(limits, s, Release(c)) else s, GiveBack(c))
  }

  /**
   No deadlock: if someone waits and no waiting caller can take a slot, some caller holds all its
   permits or is giving them back, neither of which can block it, and once it has given them back a
   waiting caller can take a slot.
   */
  lemma NoDeadlock(limits: Limits, s: LimiterState, c: string) returns (holder: string)
    requires LimiterInv(limits, s) && Blocked(limits, s) && Waiting(s, c)
    ensures holder in s.callers && (s.callers[holder].Holding? || s.callers[holder].Releasing?)
    ensures !Blocked(limits, Released(limits, s, holder))
  {
    holder := c;
    if s.callers[c].WaitGlobal? {
      assert !Enabled(limits, s, TakeGlobal(c));
      holder := SomePositive(s.callers, HeldGlobal(limits));
    }
    if s.callers[holder].WaitHost? {
      var waiter, host := holder, s.callers[holder].host;
      assert !Enabled(limits, s, TakeHost(waiter));
      assert HostFits(limits, s, host);
      holder := SomePositive(s.callers, HeldHost(limits, host));
      assert Enabled(limits, Released(limits, s, holder), TakeHost(waiter));
    } else {
      assert Enabled(limits, Released(limits, s, holder), TakeGlobal(c));
    }
  }

  lemma {:induction false} AllZero<V>(m: map<string, V>, weight: V -> int)
    requires forall k :: k in m ==> weight(m[k]) == 0
    ensures Total(m, weight) == 0
    decreases m.Keys
  {
    if m.Keys != {} {
      TotalSplit(m, weight, Pick(m));
      AllZero(m - {Pick(m)}, weight);
    }
  }

  /** Every permit comes back exactly once: when all callers are done, both levels are empty. */
  lemma AllPermitsReturned(limits: Limits, s: LimiterState, host: string)
    requires LimiterInv(limits, s) && forall c :: c in s.callers ==> s.callers[c].Done?
    ensures s.totalUsed == 0 && HostCount(s, host) == 0
  {
    assert HostFits(limits, s, host);
    AllZero(s.callers, HeldGlobal(limits));
    AllZero(s.callers, HeldHost(limits, host));
  }

  /** A receive by a releasing caller finds its permit in the channel. */
  lemma ReceivesFindPermits(limits: Limits, s: LimiterState, c: string)
    requires LimiterInv(limits, s) && c in s.callers
    ensures s.callers[c].Holding? && NeedsHost(limits, s.callers[c].host) ==> HostCount(s, s.callers[c].host) > 0
    ensures (s.callers[c].Holding? || s.callers[c].Releasing?) && limits.total > 0 ==> s.totalUsed > 0
  {
    TotalAtLeast(s.callers, HeldGlobal(limits), c);
    if s.callers[c].Holding? {
      var host := s.callers[c].host;
      assert HostFits(limits, s, host);
      TotalAtLeast(s.callers, HeldHost(limits, host), c);
    }
  }

  /** A second release by the same caller changes nothing. */
  lemma ReleaseIsOnce(limits: Limits, s: LimiterState, c: string)
    requires c in s.callers && (s.callers[c].Holding? || s.callers[c].Releasing?)
    ensures var t := Released(limits, s, c);
      Enabled(limits, t, Release(c)) && Apply(limits, t, Release(c)) == t
  {
  }

  // ---------------------------------------------------------------- the object

  /** The limiter; each method is one indivisible step of one caller. */
  class CrawlLimiter {
    const limits: Limits
    var callers: map<string, Phase>
    var totalUsed: int
    var hostUsed: map<string, int>

    ghost function State(): LimiterState
      reads this
    {
      LimiterState(callers, totalUsed, hostUsed)
    }

    ghost predicate Valid()
      reads this
    {
      LimiterInv(limits, State())
    }

    constructor (limits: Limits)
      ensures Valid() && this.limits == limits && State() == EMPTY
    {
      this.limits := limits;
      callers, totalUsed, hostUsed := map[], 0, map[];
      new;
      EmptyInv(limits);
    }

    /** The lookup of a host's channel. */
    method HostSlot(host: string)
      requires NeedsHost(limits, host)
      modifies this`hostUsed
      ensures hostUsed == WithSlot(limits, old(hostUsed), host)
    {
      if host !in hostUsed {
        hostUsed := hostUsed[host := 0];
      }
    }

    /** A caller past the global level: it queues at its host's channel or holds everything it needs. */
    method PassGlobal(caller: string, host: string)
      modifies this`callers, this`hostUsed
      ensures State() == PastGlobal(limits, old(State()), caller, host)
    {
      if limits.perHost > 0 && host != "" {
        HostSlot(host);
        callers := callers[caller := WaitHost(host)];
      } else {
        callers := callers[caller := Holding(host)];
      }
    }

    method Begin(caller: string, host: string)
      requires Valid() && caller !in callers
      modifies this
      ensures Valid() && State() == Apply(limits, old(State()), Arrive(caller, host))
      ensures totalUsed == old(totalUsed)
      ensures callers == old(callers)[caller :=
        if limits.total > 0 then WaitGlobal(host)
        else if limits.perHost > 0 && host != "" then WaitHost(host)
        else Holding(host)]
    {
      EventKeepsInv(limits, State(), Arrive(caller, host));
      if limits.total > 0 {
        callers := callers[caller := WaitGlobal(host)];
      } else {
        PassGlobal(caller, host);
      }
    }

    /** Sends to the global channel when it has room. */
    method TryGlobal(caller: string) returns (ok: bool)
      requires Valid() && caller in callers && callers[caller].WaitGlobal?
      modifies this
      ensures Valid() && ok == Enabled(limits, old(State()), TakeGlobal(caller))
      ensures State() == if ok then Apply(limits, old(State()), TakeGlobal(caller)) else old(State())
      ensures ok == (old(totalUsed) < limits.total) && totalUsed == old(totalUsed) + if ok then 1 else 0
      ensures ok ==>
        var host := old(callers)[caller].host;
        callers == old(callers)[caller :=
          if limits.perHost > 0 && host != "" then WaitHost(host) else Holding(host)]
    {
      ok := totalUsed < limits.total;
      if ok {
        EventKeepsInv(limits, State(), TakeGlobal(caller));
        totalUsed := totalUsed + 1;
        PassGlobal(caller, callers[caller].host);
      }
    }

    /** Sends to the host's channel when it has room. */
    method TryHost(caller: string) returns (ok: bool)
      requires Valid() && caller in callers && callers[caller].WaitHost?
      modifies this
      ensures Valid() && ok == Enabled(limits, old(State()), TakeHost(caller))
      ensures State() == if ok then Apply(limits, old(State()), TakeHost(caller)) else old(State())
      ensures var host := old(callers)[caller].host;
        var used := if host in old(hostUsed) then old(hostUsed)[host] else 0;
        && ok == (used < limits.perHost)
        && (ok ==> callers == old(callers)[caller := Holding(host)] && hostUsed == old(hostUsed)[host := used + 1])
    {
      var host := callers[caller].host;
      var used := if host in hostUsed then hostUsed[host] else 0;
      ok := used < limits.perHost;
      if ok {
        EventKeepsInv(limits, State(), TakeHost(caller));
        hostUsed := hostUsed[host := used + 1];
        callers := callers[caller := Holding(host)];
      }
    }

    /** The context of a waiting caller ends: whatever it holds goes back. */
    method Abandon(caller: string)
      requires Valid() && caller in callers && (callers[caller].WaitGlobal? || callers[caller].WaitHost?)
      modifies this
      ensures Valid() && State() == Apply(limits, old(State()), Cancel(caller))
      ensures callers == old(callers)[caller := Done] && hostUsed == old(hostUsed)
      ensures totalUsed == old(totalUsed) - if old(callers)[caller].WaitHost? && limits.total > 0 then 1 else 0
    {
      EventKeepsInv(limits, State(), Cancel(caller));
      if callers[caller].WaitHost? && limits.total > 0 {
        totalUsed := totalUsed - 1;
      }
      callers := callers[caller := Done];
    }

    /** The first half of the release closure, and only the first time: receive from the host's channel. */
    method Finish(caller: string)
      requires Valid() && caller in callers && (callers[caller].Holding? || callers[caller].Done?)
      modifies this
      ensures Valid() && State() == Apply(limits, old(State()), Release(caller))
      ensures totalUsed == old(totalUsed)
      ensures old(callers)[caller].Done? ==> callers == old(callers) && hostUsed == old(hostUsed)
      ensures old(callers)[caller].Holding? ==>
        var host := old(callers)[caller].host;
        && callers == old(callers)[caller := Releasing(host)]
        && if limits.perHost > 0 && host != "" then
             host in old(hostUsed) && hostUsed == old(hostUsed)[host := old(hostUsed)[host] - 1]
           else hostUsed == old(hostUsed)
    {
      EventKeepsInv(limits, State(), Release(caller));
      ReceivesFindPermits(limits, State(), caller);
      if callers[caller].Holding? {
        var host := callers[caller].host;
        if limits.perHost > 0 && host != "" {
          hostUsed := hostUsed[host := (if host in hostUsed then hostUsed[host] else 0) - 1];
        }
        callers := callers[caller := Releasing(host)];
      }
    }

    /** The second half: receive from the global channel. */
    method FinishGlobal(caller: string)
      requires Valid() && caller in callers && callers[caller].Releasing?
      modifies this
      ensures Valid() && State() == Apply(limits, old(State()), GiveBack(caller))
      ensures callers == old(callers)[caller := Done] && hostUsed == old(hostUsed)
      ensures totalUsed == old(totalUsed) - if limits.total > 0 then 1 else 0
    {
      EventKeepsInv(limits, State(), GiveBack(caller));
      if limits.total > 0 {
        totalUsed := totalUsed - 1;
      }
      callers := callers[caller := Done];
    }
  }
}
