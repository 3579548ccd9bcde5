/** The two mempools, which share one algorithm: a pending list and three index maps. */
module Pools {
  import opened Records
  import opened Totals
  import Text

  const REPLACEMENT_BUMP_BPS := 11000

  /** A pending transaction; `detail` stands for the request and task of a search-task envelope. */
  datatype Entry = Entry(tx: Transaction, detail: string)

  datatype PoolError = PoolFull | SenderQueueFull | ReplacementUnderpriced

  datatype Outcome = Outcome(err: Option<PoolError>, pending: seq<Entry>)

  // ---------------------------------------------------------------- replacement pricing

  /** Division that truncates toward zero. */
  function Quo(a: int, b: int): int
    requires b > 0
  {
    if a >= 0 then a / b else -(-a / b)
  }

  predicate ShouldReplace(current: Amount, next: Amount) {
    current.Plain? && next.Plain? && next.n >= Quo(current.n * REPLACEMENT_BUMP_BPS, BASIS_POINTS)
  }

  /**
   A replacement never lowers the slot's value exactly when the current value is above -10,
   so never for a value the ledger accepts; it always raises the value exactly from 10 on.
   */
  lemma ReplacementPricing(current: int)
    ensures (forall next :: ShouldReplace(Plain(current), Plain(next)) ==> next >= current) <==> current > -10
    ensures (forall next :: ShouldReplace(Plain(current), Plain(next)) ==> next > current) <==> current >= 10
  {
    var required := Quo(current * 11000, 10000);
    assert ShouldReplace(Plain(current), Plain(required));
  }

  // ---------------------------------------------------------------- slots

  function SlotKey(sender: string, nonce: nat): string {
    sender + "#" + Text.Decimal(nonce)
  }

  predicate SameSlot(a: Transaction, b: Transaction) {
    a.from == b.from && a.nonce == b.nonce
  }

  /** The slot key determines the sender and the nonce, whatever characters the sender holds. */
  lemma SlotKeyInjective(s: string, m: nat, t: string, n: nat)
    requires SlotKey(s, m) == SlotKey(t, n)
    ensures s == t && m == n
  {
    var key := SlotKey(s, m);
    assert key[|s|] == '#' && key[|t|] == '#';
    if |s| < |t| {
      NoMarkAfter(s, m, |t|);
    } else if |t| < |s| {
      NoMarkAfter(t, n, |s|);
    } else {
      assert s == key[..|s|] && t == key[..|t|];
      assert Text.Decimal(m) == key[|s| + 1..] == Text.Decimal(n);
      Text.DecimalInjective(m, n);
    }
  }

  lemma NoMarkAfter(sender: string, nonce: nat, i: nat)
    requires |sender| < i < |SlotKey(sender, nonce)|
    ensures SlotKey(sender, nonce)[i] != '#'
  {
    var digits := Text.Decimal(nonce);
    assert SlotKey(sender, nonce)[i] == digits[i - |sender| - 1];
    assert Text.IsDigit(digits[i - |sender| - 1]);
  }

  // ---------------------------------------------------------------- the pending list

  ghost predicate Unique(p: seq<Entry>) {
    forall i, j :: 0 <= i < j < |p| ==> p[i].tx.hash != p[j].tx.hash && !SameSlot(p[i].tx, p[j].tx)
  }

  function CountFrom(p: seq<Entry>, sender: string): nat {
    if p == [] then 0 else CountFrom(p[..|p| - 1], sender) + if p[|p| - 1].tx.from == sender then 1 else 0
  }

  ghost predicate WithinLimits(p: seq<Entry>, limit: int, senderLimit: int) {
    && (limit > 0 ==> |p| <= limit)
    && (senderLimit > 0 ==> forall s :: CountFrom(p, s) <= senderLimit)
  }

  function HasHash(p: seq<Entry>, hash: string): bool {
    exists i :: 0 <= i < |p| && p[i].tx.hash == hash
  }

  /** The position of the entry in the same slot, or -1. */
  function SlotIndex(p: seq<Entry>, tx: Transaction): (r: int)
    ensures -1 <= r < |p|
    ensures r >= 0 ==> SameSlot(p[r].tx, tx)
    ensures r < 0 ==> forall i :: 0 <= i < |p| ==> !SameSlot(p[i].tx, tx)
  {
    if p == [] then -1
    else if SameSlot(p[|p| - 1].tx, tx) then |p| - 1
    else SlotIndex(p[..|p| - 1], tx)
  }

  function AddTo(p: seq<Entry>, limit: int, senderLimit: int, e: Entry): Outcome {
    var i := SlotIndex(p, e.tx);
    if HasHash(p, e.tx.hash) then Outcome(None, p)
    else if i >= 0 then
      if ShouldReplace(p[i].tx.value, e.tx.value) then Outcome(None, p[i := e])
        else Outcome(Some(ReplacementUnderpriced), p)
    else if limit > 0 && |p| >= limit then Outcome(Some(PoolFull), p)
    else if senderLimit > 0 && CountFrom(p, e.tx.from) >= senderLimit then Outcome(Some(SenderQueueFull), p)
    else Outcome(None, p + [e])
  }

  // ---------------------------------------------------------------- the outcome of an offer, written out

  function IsFrom(sender: string): Entry -> bool {
    (e: Entry) => e.tx.from == sender
  }

  /** How many entries of a sender there are. */
  lemma {:induction false} CountIsNumber(p: seq<Entry>, sender: string)
    ensures CountFrom(p, sender) == |Places(p, IsFrom(sender))|
    decreases |p|
  {
    if p == [] {
      assert Places(p, IsFrom(sender)) == {};
    } else {
      hide Places;
      CountIsNumber(p[..|p| - 1], sender);
      PlacesNext(p, IsFrom(sender));
    }
  }

  /** Enough for a slot that holds `current`: eleven tenths of it, the fraction dropped toward zero. */
  predicate Outbids(current: Amount, next: Amount) {
    && current.Plain? && next.Plain?
    && if current.n >= 0 then 10 * next.n > 11 * current.n - 10 else 10 * next.n >= 11 * current.n
  }

  lemma OutbidsExactly(current: Amount, next: Amount)
    ensures ShouldReplace(current, next) <==> Outbids(current, next)
  {
  }

  /**
   What an offer comes to. A known hash changes nothing. An entry for a taken slot replaces the holder
   in its place if it outbids it. Any other entry goes to the end, if the pool is not full and its
   sender's share is not used up.
   */
  ghost predicate Decided(p: seq<Entry>, limit: int, senderLimit: int, e: Entry, o: Outcome) {
    if exists i :: 0 <= i < |p| && p[i].tx.hash == e.tx.hash then o == Outcome(None, p)
    else if i :| 0 <= i < |p| && p[i].tx.from == e.tx.from && p[i].tx.nonce == e.tx.nonce then
      o == if Outbids(p[i].tx.value, e.tx.value) then Outcome(None, p[i := e])
           else Outcome(Some(ReplacementUnderpriced), p)
    else if limit > 0 && |p| >= limit then o == Outcome(Some(PoolFull), p)
    else if senderLimit > 0 && |set i: nat | i < |p| && p[i].tx.from == e.tx.from| >= senderLimit then
      o == Outcome(Some(SenderQueueFull), p)
    else o == Outcome(None, p + [e])
  }

  lemma AddDecides(p: seq<Entry>, limit: int, senderLimit: int, e: Entry)
    requires Unique(p)
    ensures Decided(p, limit, senderLimit, e, AddTo(p, limit, senderLimit, e))
  {
    CountIsNumber(p, e.tx.from);
    assert Places(p, IsFrom(e.tx.from)) == set i: nat | i < |p| && p[i].tx.from == e.tx.from;
    var i := SlotIndex(p, e.tx);
    if i >= 0 {
      OutbidsExactly(p[i].tx.value, e.tx.value);
    }
    hide CountFrom, ShouldReplace, Outbids;
  }

  /** Adds entries in turn, skipping refusals, and stops when the pool is full. */
  function RequeueInto(p: seq<Entry>, limit: int, senderLimit: int, es: seq<Entry>): seq<Entry>
    decreases |es|
  {
    if es == [] then p
    else
      var o := AddTo(p, limit, senderLimit, es[0]);
      if o.err == Some(PoolFull) then p else RequeueInto(o.pending, limit, senderLimit, es[1..])
  }

  lemma {:induction false} RequeueAppend(p: seq<Entry>, limit: int, senderLimit: int, a: seq<Entry>, b: seq<Entry>)
    requires forall i :: 0 <= i < |a| ==>
      AddTo(RequeueInto(p, limit, senderLimit, a[..i]), limit, senderLimit, a[i]).err != Some(PoolFull)
    ensures RequeueInto(p, limit, senderLimit, a + b)
         == RequeueInto(RequeueInto(p, limit, senderLimit, a), limit, senderLimit, b)
    decreases |a|
  {
    hide AddTo;
    if a == [] {
      assert a + b == b;
    } else {
      var q := AddTo(p, limit, senderLimit, a[0]).pending;
      assert a[..0] == [];
      assert AddTo(RequeueInto(p, limit, senderLimit, a[..0]), limit, senderLimit, a[0])
          == AddTo(p, limit, senderLimit, a[0]);
      assert (a + b)[1..] == a[1..] + b && (a + b)[0] == a[0];
      forall i | 0 <= i < |a| - 1
        ensures AddTo(RequeueInto(q, limit, senderLimit, a[1..][..i]), limit, senderLimit, a[1..][i]).err
             != Some(PoolFull)
      {
        assert a[..i + 1][1..] == a[1..][..i] && a[..i + 1][0] == a[0];
      }
      RequeueAppend(q, limit, senderLimit, a[1..], b);
    }
  }

  /**
   Requeueing a list in which some entry is refused, none before it because the pool was full: the entry
   is skipped, unless the pool is full now; then it and all behind it are dropped.
   */
  lemma RequeueSkips(p: seq<Entry>, limit: int, senderLimit: int, a: seq<Entry>, e: Entry, b: seq<Entry>)
    requires forall i :: 0 <= i < |a| ==>
      AddTo(RequeueInto(p, limit, senderLimit, a[..i]), limit, senderLimit, a[i]).err != Some(PoolFull)
    ensures var o := AddTo(RequeueInto(p, limit, senderLimit, a), limit, senderLimit, e);
      RequeueInto(p, limit, senderLimit, a + [e] + b) ==
        match o.err
        case None => RequeueInto(o.pending, limit, senderLimit, b)
        case Some(PoolFull) => RequeueInto(p, limit, senderLimit, a)
        case Some(_) => RequeueInto(p, limit, senderLimit, a + b)
  {
    hide *;
    RequeueOne(RequeueInto(p, limit, senderLimit, a), limit, senderLimit, e, b);
    RequeueAppend(p, limit, senderLimit, a, [e] + b);
    RequeueAppend(p, limit, senderLimit, a, b);
    assert a + [e] + b == a + ([e] + b);
  }

  lemma RequeueOne(p: seq<Entry>, limit: int, senderLimit: int, e: Entry, b: seq<Entry>)
    ensures var o := AddTo(p, limit, senderLimit, e);
      RequeueInto(p, limit, senderLimit, [e] + b) ==
        match o.err
        case None => RequeueInto(o.pending, limit, senderLimit, b)
        case Some(PoolFull) => p
        case Some(_) => RequeueInto(p, limit, senderLimit, b)
  {
    RefusedChangesNothing(p, limit, senderLimit, e);
    assert ([e] + b)[1..] == b && ([e] + b)[0] == e;
    hide AddTo;
  }

  lemma RefusedChangesNothing(p: seq<Entry>, limit: int, senderLimit: int, e: Entry)
    ensures AddTo(p, limit, senderLimit, e).err != None ==> AddTo(p, limit, senderLimit, e).pending == p
  {
  }

  predicate AtOrPast(e: Entry, sender: string, nonce: nat) {
    e.tx.from == sender && e.tx.nonce >= nonce
  }

  /** The entries at or past a sender's nonce, or the others, in pool order. */
  function Select(p: seq<Entry>, sender: string, nonce: nat, hit: bool): seq<Entry> {
    if p == [] then []
    else
      Select(p[..|p| - 1], sender, nonce, hit)
      + if AtOrPast(p[|p| - 1], sender, nonce) == hit then [p[|p| - 1]] else []
  }

  // ---------------------------------------------------------------- what the operations keep

  ghost predicate PoolInv(p: seq<Entry>, limit: int, senderLimit: int) {
    Unique(p) && WithinLimits(p, limit, senderLimit)
  }

  lemma {:induction false} CountAppend(p: seq<Entry>, q: seq<Entry>, s: string)
    ensures CountFrom(p + q, s) == CountFrom(p, s) + CountFrom(q, s)
  {
    if q == [] {
      assert p + q == p;
    } else {
      assert (p + q)[..|p + q| - 1] == p + q[..|q| - 1];
      CountAppend(p, q[..|q| - 1], s);
    }
  }

  lemma CountReplace(p: seq<Entry>, i: nat, e: Entry, s: string)
    requires i < |p| && p[i].tx.from == e.tx.from
    ensures CountFrom(p[i := e], s) == CountFrom(p, s)
  {
    var a, b := p[..i], p[i + 1..];
    assert p == a + ([p[i]] + b) && p[i := e] == a + ([e] + b);
    CountAppend(a, [p[i]] + b, s);
    CountAppend(a, [e] + b, s);
    CountAppend([p[i]], b, s);
    CountAppend([e], b, s);
  }

  lemma ReplaceKeepsInv(p: seq<Entry>, limit: int, senderLimit: int, i: nat, e: Entry)
    requires PoolInv(p, limit, senderLimit)
    requires i < |p| && SameSlot(p[i].tx, e.tx) && !HasHash(p, e.tx.hash)
    ensures PoolInv(p[i := e], limit, senderLimit)
  {
    hide CountFrom;
    var r := p[i := e];
    forall s: string
      ensures CountFrom(r, s) == CountFrom(p, s)
    {
      CountReplace(p, i, e, s);
    }
    forall j, k | 0 <= j < k < |r|
      ensures r[j].tx.hash != r[k].tx.hash && !SameSlot(r[j].tx, r[k].tx)
    {
      assert p[j].tx.hash != p[k].tx.hash && !SameSlot(p[j].tx, p[k].tx);
    }
  }

  lemma AppendKeepsInv(p: seq<Entry>, limit: int, senderLimit: int, e: Entry)
    requires PoolInv(p, limit, senderLimit)
    requires !HasHash(p, e.tx.hash) && forall i :: 0 <= i < |p| ==> !SameSlot(p[i].tx, e.tx)
    requires limit > 0 ==> |p| < limit
    requires senderLimit > 0 ==> CountFrom(p, e.tx.from) < senderLimit
    ensures PoolInv(p + [e], limit, senderLimit)
  {
    forall s: string
      ensures CountFrom(p + [e], s) == CountFrom(p, s) + if s == e.tx.from then 1 else 0
    {
      assert (p + [e])[..|p + [e]| - 1] == p;
    }
    hide CountFrom;
  }

  /** Adding keeps hashes and slots unique and both limits. */
  lemma AddKeepsInv(p: seq<Entry>, limit: int, senderLimit: int, e: Entry)
    requires PoolInv(p, limit, senderLimit)
    ensures PoolInv(AddTo(p, limit, senderLimit, e).pending, limit, senderLimit)
  {
    hide CountFrom, PoolInv, ShouldReplace, HasHash;
    var i, r := SlotIndex(p, e.tx), AddTo(p, limit, senderLimit, e).pending;
    if !HasHash(p, e.tx.hash) {
      if i >= 0 {
        ReplaceKeepsInv(p, limit, senderLimit, i, e);
      } else if && r == p + [e]
                && !(limit > 0 && |p| >= limit)
                && !(senderLimit > 0 && CountFrom(p, e.tx.from) >= senderLimit) {
        AppendKeepsInv(p, limit, senderLimit, e);
      }
    }
  }

  lemma {:induction false} RequeueKeepsInv(p: seq<Entry>, limit: int, senderLimit: int, es: seq<Entry>)
    requires PoolInv(p, limit, senderLimit)
    ensures PoolInv(RequeueInto(p, limit, senderLimit, es), limit, senderLimit)
    decreases |es|
  {
    hide AddTo, PoolInv;
    if es != [] {
      AddKeepsInv(p, limit, senderLimit, es[0]);
      RequeueKeepsInv(AddTo(p, limit, senderLimit, es[0]).pending, limit, senderLimit, es[1..]);
    }
  }

  /** `q` is `p` with some entries left out. */
  ghost predicate Thinned(q: seq<Entry>, p: seq<Entry>)
    decreases |p|
  {
    if p == [] then q == []
    else || Thinned(q, p[..|p| - 1])
         || (q != [] && q[|q| - 1] == p[|p| - 1] && Thinned(q[..|q| - 1], p[..|p| - 1]))
  }

  lemma {:induction false} ThinnedMembers(q: seq<Entry>, p: seq<Entry>)
    requires Thinned(q, p)
    ensures forall e :: e in q ==> e in p
    ensures |q| <= |p| && forall s :: CountFrom(q, s) <= CountFrom(p, s)
    ensures Unique(p) ==> Unique(q)
    decreases |p|
  {
    if p != [] {
      var init := p[..|p| - 1];
      assert p == init + [p[|p| - 1]];
      if Thinned(q, init) {
        ThinnedMembers(q, init);
      } else {
        ThinnedMembers(q[..|q| - 1], init);
        assert q == q[..|q| - 1] + [q[|q| - 1]];
        if Unique(p) {
          forall i | 0 <= i < |q| - 1
            ensures q[i].tx.hash != q[|q| - 1].tx.hash && !SameSlot(q[i].tx, q[|q| - 1].tx)
          {
            assert q[i] in q[..|q| - 1];
            var j :| 0 <= j < |init| && init[j] == q[i];
            assert p[j] == q[i];
          }
        }
      }
    }
  }

  /** Leaving entries out keeps the invariant. */
  lemma ThinnedKeepsInv(q: seq<Entry>, p: seq<Entry>, limit: int, senderLimit: int)
    requires Thinned(q, p) && PoolInv(p, limit, senderLimit)
    ensures PoolInv(q, limit, senderLimit)
  {
    ThinnedMembers(q, p);
  }

  lemma {:induction false} SuffixThinned(p: seq<Entry>, k: nat)
    requires k <= |p|
    ensures Thinned(p[k..], p)
    decreases |p|
  {
    if k == |p| {
      NothingThinned(p);
    } else {
      var init := p[..|p| - 1];
      SuffixThinned(init, k);
      assert p[k..][..|p| - k - 1] == init[k..];
    }
  }

  lemma {:induction false} NothingThinned(p: seq<Entry>)
    ensures Thinned([], p)
    decreases |p|
  {
    if p != [] {
      NothingThinned(p[..|p| - 1]);
    }
  }

  /** Selecting splits the pool: each part is thinned from it, and each entry is in its own part. */
  lemma {:induction false} SelectSplits(p: seq<Entry>, sender: string, nonce: nat, hit: bool)
    ensures Thinned(Select(p, sender, nonce, hit), p)
    ensures forall e :: e in Select(p, sender, nonce, hit) <==> e in p && AtOrPast(e, sender, nonce) == hit
    ensures |Select(p, sender, nonce, hit)| + |Select(p, sender, nonce, !hit)| == |p|
    decreases |p|
  {
    hide AtOrPast;
    if p != [] {
      var init, last := p[..|p| - 1], p[|p| - 1];
      SelectSplits(init, sender, nonce, hit);
      assert p == init + [last];
      var q := Select(p, sender, nonce, hit);
      if AtOrPast(last, sender, nonce) == hit {
        assert q[..|q| - 1] == Select(init, sender, nonce, hit);
      } else {
        assert q == Select(init, sender, nonce, hit);
      }
    }
  }

  /** Through any number of replacements, what a slot holds never loses value. */
  lemma SlotValueNeverFalls(p: seq<Entry>, limit: int, senderLimit: int, e: Entry, i: nat)
    requires i < |p| && p[i].tx.value.Plain? && p[i].tx.value.n >= 0
    ensures var r := AddTo(p, limit, senderLimit, e).pending;
      i < |r| && SameSlot(r[i].tx, p[i].tx) && r[i].tx.value.Plain? && r[i].tx.value.n >= p[i].tx.value.n
  {
    ReplacementPricing(p[i].tx.value.n);
  }

  lemma {:induction false} SlotValueNeverFallsOverRuns(p: seq<Entry>, limit: int, senderLimit: int, es: seq<Entry>,
                                                       i: nat)
    requires i < |p| && p[i].tx.value.Plain? && p[i].tx.value.n >= 0
    ensures var r := RequeueInto(p, limit, senderLimit, es);
      i < |r| && SameSlot(r[i].tx, p[i].tx) && r[i].tx.value.Plain? && r[i].tx.value.n >= p[i].tx.value.n
    decreases |es|
  {
    hide AddTo;
    if es != [] {
      SlotValueNeverFalls(p, limit, senderLimit, es[0], i);
      SlotValueNeverFallsOverRuns(AddTo(p, limit, senderLimit, es[0]).pending, limit, senderLimit, es[1..], i);
    }
  }

  // ---------------------------------------------------------------- the object

  function KeyOf(e: Entry): string {
    SlotKey(e.tx.from, e.tx.nonce)
  }

  ghost predicate SeenMatches(p: seq<Entry>, seen: set<string>) {
    forall h :: h in seen <==> HasHash(p, h)
  }

  ghost predicate SlotsMatch(p: seq<Entry>, slots: map<string, string>) {
    && (forall i :: 0 <= i < |p| ==> KeyOf(p[i]) in slots && slots[KeyOf(p[i])] == p[i].tx.hash)
    && (forall k :: k in slots ==> exists i :: 0 <= i < |p| && KeyOf(p[i]) == k)
  }

  ghost predicate CountsMatch(p: seq<Entry>, counts: map<string, nat>) {
    forall s :: Counted(counts, s) == CountFrom(p, s) && (s in counts <==> CountFrom(p, s) > 0)
  }

  /** The three indices say exactly what the pending list holds. */
  ghost predicate Indexes(p: seq<Entry>, seen: set<string>, slots: map<string, string>, counts: map<string, nat>) {
    SeenMatches(p, seen) && SlotsMatch(p, slots) && CountsMatch(p, counts)
  }

  /** The slot map finds the entry in the same slot, and only that. */
  lemma SlotLookup(p: seq<Entry>, slots: map<string, string>, e: Entry)
    requires Unique(p) && SlotsMatch(p, slots)
    ensures KeyOf(e) in slots <==> SlotIndex(p, e.tx) >= 0
    ensures KeyOf(e) in slots ==> slots[KeyOf(e)] == p[SlotIndex(p, e.tx)].tx.hash
  {
    hide SlotKey;
    if KeyOf(e) in slots {
      var i :| 0 <= i < |p| && KeyOf(p[i]) == KeyOf(e);
      SlotKeyInjective(p[i].tx.from, p[i].tx.nonce, e.tx.from, e.tx.nonce);
      assert SameSlot(p[i].tx, e.tx);
    }
  }

  lemma AppendIndexes(p: seq<Entry>, seen: set<string>, slots: map<string, string>, counts: map<string, nat>, e: Entry)
    requires Indexes(p, seen, slots, counts) && KeyOf(e) !in slots
    ensures Indexes(p + [e], seen + {e.tx.hash}, slots[KeyOf(e) := e.tx.hash],
      counts[e.tx.from := Counted(counts, e.tx.from) + 1])
  {
    hide KeyOf;
    var r := p + [e];
    assert forall i :: 0 <= i < |p| ==> r[i] == p[i];
    assert r[|p|] == e;
    assert CountsMatch(r, counts[e.tx.from := Counted(counts, e.tx.from) + 1]) by {
      forall s: string
        ensures CountFrom(r, s) == CountFrom(p, s) + if s == e.tx.from then 1 else 0
      {
        CountAppend(p, [e], s);
      }
    }
  }

  lemma ReplaceSeen(p: seq<Entry>, seen: set<string>, i: nat, e: Entry)
    requires Unique(p) && SeenMatches(p, seen) && i < |p|
    ensures SeenMatches(p[i := e], seen - {p[i].tx.hash} + {e.tx.hash})
  {
    var r := p[i := e];
    assert r[i] == e;
    forall h | HasHash(p, h) && h != p[i].tx.hash
      ensures HasHash(r, h)
    {
      var j :| 0 <= j < |p| && p[j].tx.hash == h;
      assert r[j].tx.hash == h;
    }
    forall h | HasHash(r, h)
      ensures h == e.tx.hash || (HasHash(p, h) && h != p[i].tx.hash)
    {
      var j :| 0 <= j < |r| && r[j].tx.hash == h;
    }
  }

  lemma ReplaceSlots(p: seq<Entry>, slots: map<string, string>, i: nat, e: Entry)
    requires Unique(p) && SlotsMatch(p, slots) && i < |p| && SameSlot(p[i].tx, e.tx)
    ensures SlotsMatch(p[i := e], slots[KeyOf(e) := e.tx.hash])
  {
    hide SlotKey;
    var r := p[i := e];
    assert KeyOf(p[i]) == KeyOf(e);
    forall j | 0 <= j < |p| && j != i
      ensures KeyOf(p[j]) != KeyOf(e)
    {
      if KeyOf(p[j]) == KeyOf(e) {
        SlotKeyInjective(p[j].tx.from, p[j].tx.nonce, e.tx.from, e.tx.nonce);
      }
    }
    forall k | k in slots
      ensures exists j :: 0 <= j < |r| && KeyOf(r[j]) == k
    {
      var j :| 0 <= j < |p| && KeyOf(p[j]) == k;
      assert KeyOf(r[j]) == k;
    }
    assert KeyOf(r[i]) == KeyOf(e);
  }

  lemma ReplaceIndexes(p: seq<Entry>, seen: set<string>, slots: map<string, string>, counts: map<string, nat>, i: nat,
                       e: Entry)
    requires Unique(p) && Indexes(p, seen, slots, counts) && i < |p| && SameSlot(p[i].tx, e.tx)
    ensures Indexes(p[i := e], seen - {p[i].tx.hash} + {e.tx.hash}, slots[KeyOf(e) := e.tx.hash], counts)
  {
    hide SeenMatches, SlotsMatch, KeyOf, Unique;
    ReplaceSeen(p, seen, i, e);
    ReplaceSlots(p, slots, i, e);
    forall s: string
      ensures CountFrom(p[i := e], s) == CountFrom(p, s)
    {
      CountReplace(p, i, e, s);
    }
  }

  class Pool {
    var pending: seq<Entry>
    var seen: set<string>
    var bySenderNonce: map<string, string>
    var senderCounts: map<string, nat>
    const limit: int
    const senderLimit: int

    ghost predicate Valid()
      reads this
    {
      PoolInv(pending, limit, senderLimit) && Indexes(pending, seen, bySenderNonce, senderCounts)
    }

    constructor (limit: int, senderLimit: int)
      ensures Valid() && pending == [] && this.limit == limit && this.senderLimit == senderLimit
    {
      this.limit, this.senderLimit := limit, senderLimit;
      pending, seen, bySenderNonce, senderCounts := [], {}, map[], map[];
    }

    method IndexOfHash(hash: string) returns (index: int)
      ensures -1 <= index < |pending|
      ensures index >= 0 ==> pending[index].tx.hash == hash && forall i :: 0 <= i < index ==> pending[i].tx.hash != hash
      ensures index < 0 ==> !HasHash(pending, hash)
    {
      index := 0;
      while index < |pending|
        invariant 0 <= index <= |pending|
        invariant forall i :: 0 <= i < index ==> pending[i].tx.hash != hash
      {
        if pending[index].tx.hash == hash {
          return;
        }
        index := index + 1;
      }
      index := -1;
    }

    /** Finds the entry that holds the slot; the slot map never points to a hash that is not pending. */
    method SlotHolder(e: Entry) returns (index: int)
      requires Valid()
      ensures index == SlotIndex(pending, e.tx)
    {
      hide WithinLimits, CountsMatch;
      SlotLookup(pending, bySenderNonce, e);
      var key := SlotKey(e.tx.from, e.tx.nonce);
      if key !in bySenderNonce {
        return -1;
      }
      index := IndexOfHash(bySenderNonce[key]);
      assert pending[SlotIndex(pending, e.tx)].tx.hash == bySenderNonce[key];
    }

    method Add(e: Entry) returns (err: Option<PoolError>)
      requires Valid()
      modifies this
      ensures Valid()
      ensures Outcome(err, pending) == AddTo(old(pending), limit, senderLimit, e)
      ensures Decided(old(pending), limit, senderLimit, e, Outcome(err, pending))
    {
      hide Decided, PoolInv, Indexes, SlotKey, KeyOf, CountFrom, HasHash, Unique, Counted, ShouldReplace;
      AddKeepsInv(pending, limit, senderLimit, e);
      ValidMeans(pending, seen, bySenderNonce, senderCounts, limit, senderLimit, e);
      AddDecides(pending, limit, senderLimit, e);
      if e.tx.hash in seen {
        return None;
      }
      var key := SlotKey(e.tx.from, e.tx.nonce);
      var index := SlotHolder(e);
      if index >= 0 {
        var existing := pending[index];
        if !ShouldReplace(existing.tx.value, e.tx.value) {
          return Some(ReplacementUnderpriced);
        }
        ReplaceIndexes(pending, seen, bySenderNonce, senderCounts, index, e);
        pending := pending[index := e];
        seen := seen - {existing.tx.hash} + {e.tx.hash};
        bySenderNonce := bySenderNonce[key := e.tx.hash];
        return None;
      }
      if limit > 0 && |pending| >= limit {
        return Some(PoolFull);
      }
      if senderLimit > 0 && Counted(senderCounts, e.tx.from) >= senderLimit {
        return Some(SenderQueueFull);
      }
      AppendIndexes(pending, seen, bySenderNonce, senderCounts, e);
      pending := pending + [e];
      seen := seen + {e.tx.hash};
      bySenderNonce := bySenderNonce[key := e.tx.hash];
      senderCounts := senderCounts[e.tx.from := Counted(senderCounts, e.tx.from) + 1];
      err := None;
    }

    method Requeue(es: seq<Entry>)
      requires Valid()
      modifies this
      ensures Valid()
      ensures pending == RequeueInto(old(pending), limit, senderLimit, es)
    {
      hide AddTo, Indexes, PoolInv;
      assert es[0..] == es;
      for i := 0 to |es|
        invariant Valid()
        invariant RequeueInto(pending, limit, senderLimit, es[i..]) == RequeueInto(old(pending), limit, senderLimit, es)
      {
        assert es[i..][1..] == es[i + 1..];
        ghost var before := pending;
        var err := Add(es[i]);
        assert AddTo(before, limit, senderLimit, es[i]) == Outcome(err, pending);
        if err == Some(PoolFull) {
          RefusedChangesNothing(before, limit, senderLimit, es[i]);
          return;
        }
      }
    }

    /** Rebuilds the three indices from the pending list. */
    method RebuildIndices()
      requires PoolInv(pending, limit, senderLimit)
      modifies this`seen, this`bySenderNonce, this`senderCounts
      ensures Valid()
    {
      hide SlotKey, CountFrom, Indexes, Unique, WithinLimits;
      seen, bySenderNonce, senderCounts := {}, map[], map[];
      EmptyIndexes();
      for i := 0 to |pending|
        invariant Indexes(pending[..i], seen, bySenderNonce, senderCounts)
      {
        var e := pending[i];
        FreshSlot(pending, i, seen, bySenderNonce, senderCounts);
        AppendIndexes(pending[..i], seen, bySenderNonce, senderCounts, e);
        assert pending[..i + 1] == pending[..i] + [e];
        seen := seen + {e.tx.hash};
        bySenderNonce := bySenderNonce[SlotKey(e.tx.from, e.tx.nonce) := e.tx.hash];
        senderCounts := senderCounts[e.tx.from := Counted(senderCounts, e.tx.from) + 1];
      }
      assert pending[..|pending|] == pending;
    }

    /** Takes the oldest entries. */
    method Drain(count: int) returns (out: seq<Entry>)
      requires Valid()
      modifies this
      ensures Valid()
      ensures out + pending == old(pending)
      ensures |out| == if count <= 0 || count > |old(pending)| then |old(pending)| else count
    {
      hide Indexes, PoolInv, Thinned;
      var n := if count <= 0 || count > |pending| then |pending| else count;
      out := pending[..n];
      SuffixThinned(pending, n);
      ThinnedKeepsInv(pending[n..], pending, limit, senderLimit);
      pending := pending[n..];
      RebuildIndices();
    }

    method RemoveSenderFromNonce(sender: string, nonce: nat) returns (removed: seq<Entry>)
      requires Valid()
      modifies this
      ensures Valid()
      ensures removed == Select(old(pending), sender, nonce, true)
      ensures pending == Select(old(pending), sender, nonce, false)
    {
      hide Indexes, PoolInv, Thinned;
      removed := [];
      var remaining := [];
      for i := 0 to |pending|
        invariant pending == old(pending) && Valid()
        invariant removed == Select(pending[..i], sender, nonce, true)
        invariant remaining == Select(pending[..i], sender, nonce, false)
      {
        assert pending[..i + 1][..i] == pending[..i];
        if pending[i].tx.from == sender && pending[i].tx.nonce >= nonce {
          removed := removed + [pending[i]];
        } else {
          remaining := remaining + [pending[i]];
        }
      }
      assert pending[..|pending|] == pending;
      SelectSplits(pending, sender, nonce, false);
      if |removed| == 0 {
        ThinnedWhole(remaining, pending);
        return;
      }
      ThinnedKeepsInv(remaining, pending, limit, senderLimit);
      pending := remaining;
      RebuildIndices();
    }
  }

  /** What the indices answer about one entry. */
  lemma ValidMeans(p: seq<Entry>, seen: set<string>, slots: map<string, string>, counts: map<string, nat>, limit: int,
                   senderLimit: int, e: Entry)
    requires PoolInv(p, limit, senderLimit) && Indexes(p, seen, slots, counts)
    ensures Unique(p)
    ensures e.tx.hash in seen <==> HasHash(p, e.tx.hash)
    ensures KeyOf(e) == SlotKey(e.tx.from, e.tx.nonce)
    ensures KeyOf(e) in slots <==> SlotIndex(p, e.tx) >= 0
    ensures Counted(counts, e.tx.from) == CountFrom(p, e.tx.from)
  {
    SlotLookup(p, slots, e);
  }

  lemma EmptyIndexes()
    ensures Indexes([], {}, map[], map[])
  {
  }

  lemma FreshSlot(p: seq<Entry>, i: nat, seen: set<string>, slots: map<string, string>, counts: map<string, nat>)
    requires Unique(p) && i < |p| && Indexes(p[..i], seen, slots, counts)
    ensures KeyOf(p[i]) !in slots
  {
    hide SlotKey, SeenMatches, CountsMatch;
    if KeyOf(p[i]) in slots {
      var j :| 0 <= j < i && KeyOf(p[..i][j]) == KeyOf(p[i]);
      SlotKeyInjective(p[j].tx.from, p[j].tx.nonce, p[i].tx.from, p[i].tx.nonce);
    }
  }

  /** A thinning that leaves nothing out is the whole. */
  lemma {:induction false} ThinnedWhole(q: seq<Entry>, p: seq<Entry>)
    requires Thinned(q, p) && |q| == |p|
    ensures q == p
    decreases |p|
  {
    if p != [] {
      if Thinned(q, p[..|p| - 1]) {
        ThinnedMembers(q, p[..|p| - 1]);
      } else {
        ThinnedWhole(q[..|q| - 1], p[..|p| - 1]);
      }
    }
  }
}
