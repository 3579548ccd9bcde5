/** Sums of an integer weight over the values of a finite map. */
module Totals {

  ghost function Pick<V>(m: map<string, V>): (k: string)
    requires m.Keys != {}
    ensures k in m
  {
    var k :| k in m.Keys;
    k
  }

  ghost function Total<V>(m: map<string, V>, weight: V -> int): int
    decreases m.Keys
  {
    if m.Keys == {} then 0
    else
      var k := Pick(m);
      weight(m[k]) + Total(m - {k}, weight)
  }

  /** Any key may be split off first. */
  lemma {:induction false} TotalSplit<V>(m: map<string, V>, weight: V -> int, k: string)
    requires k in m
    ensures Total(m, weight) == weight(m[k]) + Total(m - {k}, weight)
    decreases m.Keys
  {
    var j := Pick(m);
    if j != k {
      TotalSplit(m - {j}, weight, k);
      TotalSplit(m - {k}, weight, j);
      assert m - {j} - {k} == m - {k} - {j};
    }
  }

  /** Writing one key moves the total by the difference of the two weights. */
  lemma TotalPut<V>(m: map<string, V>, weight: V -> int, k: string, v: V)
    ensures Total(m[k := v], weight)
         == Total(m, weight) - (if k in m then weight(m[k]) else 0) + weight(v)
  {
    var n := m[k := v];
    TotalSplit(n, weight, k);
    if k in m {
      TotalSplit(m, weight, k);
      assert n - {k} == m - {k};
    } else {
      assert n - {k} == m;
    }
  }

  lemma {:induction false} TotalNonNegative<V>(m: map<string, V>, weight: V -> int)
    requires forall k :: k in m ==> weight(m[k]) >= 0
    ensures Total(m, weight) >= 0
    decreases m.Keys
  {
    if m.Keys != {} {
      var k := Pick(m);
      TotalSplit(m, weight, k);
      TotalNonNegative(m - {k}, weight);
    }
  }

  /** A single non-negative weight never exceeds a total of non-negative weights. */
  lemma TotalAtLeast<V>(m: map<string, V>, weight: V -> int, k: string)
    requires k in m
    requires forall j :: j in m ==> weight(m[j]) >= 0
    ensures weight(m[k]) <= Total(m, weight)
  {
    TotalSplit(m, weight, k);
    TotalNonNegative(m - {k}, weight);
  }

  /** Only the weights matter, not the values that carry them. */
  lemma {:induction false} TotalSame<V, W>(m: map<string, V>, weight: V -> int, n: map<string, W>, other: W -> int)
    requires m.Keys == n.Keys
    requires forall k :: k in m ==> weight(m[k]) == other(n[k])
    ensures Total(m, weight) == Total(n, other)
    decreases m.Keys
  {
    if m.Keys != {} {
      var k := Pick(m);
      TotalSplit(m, weight, k);
      TotalSplit(n, other, k);
      TotalSame(m - {k}, weight, n - {k}, other);
    }
  }

  // ---------------------------------------------------------------- sums over sequences

  function Sum<T>(xs: seq<T>, weight: T -> int): int {
    if xs == [] then 0 else weight(xs[0]) + Sum(xs[1..], weight)
  }

  lemma {:induction false} SumAppend<T>(xs: seq<T>, ys: seq<T>, weight: T -> int)
    ensures Sum(xs + ys, weight) == Sum(xs, weight) + Sum(ys, weight)
  {
    if xs == [] {
      assert xs + ys == ys;
    } else {
      assert (xs + ys)[1..] == xs[1..] + ys;
      SumAppend(xs[1..], ys, weight);
    }
  }

  lemma SumCons<T>(x: T, xs: seq<T>, weight: T -> int)
    ensures Sum([x] + xs, weight) == weight(x) + Sum(xs, weight)
  {
    assert ([x] + xs)[1..] == xs;
  }

  /** Taking one element out of a sequence takes its weight out of the sum. */
  lemma SumRemove<T>(ys: seq<T>, i: nat, weight: T -> int)
    requires i < |ys|
    ensures Sum(ys, weight) == weight(ys[i]) + Sum(ys[..i] + ys[i + 1..], weight)
  {
    hide *;
    var before, x, after := ys[..i], ys[i], ys[i + 1..];
    SumAppend(before, after, weight);
    SumAppend(before, [x] + after, weight);
    SumCons(x, after, weight);
    assert ys == before + ([x] + after);
  }

  lemma BagRemove<T>(ys: seq<T>, i: nat)
    requires i < |ys|
    ensures multiset(ys[..i] + ys[i + 1..]) == multiset(ys) - multiset{ys[i]}
  {
    assert ys == ys[..i] + [ys[i]] + ys[i + 1..];
  }

  /** A sum does not depend on the order of its terms. */
  lemma {:induction false} SumOrder<T>(xs: seq<T>, ys: seq<T>, weight: T -> int)
    requires multiset(xs) == multiset(ys)
    ensures Sum(xs, weight) == Sum(ys, weight)
    decreases |xs|
  {
    if xs == [] {
      assert ys == [];
    } else {
      assert xs == [xs[0]] + xs[1..];
      assert xs[0] in multiset(ys);
      var i :| 0 <= i < |ys| && ys[i] == xs[0];
      var rest := ys[..i] + ys[i + 1..];
      hide Sum;
      BagRemove(ys, i);
      SumRemove(ys, i, weight);
      BagRemove(xs, 0);
      SumRemove(xs, 0, weight);
      assert xs[..0] + xs[1..] == xs[1..];
      SumOrder(xs[1..], rest, weight);
    }
  }

  lemma {:induction false} SumSame<T>(xs: seq<T>, weight: T -> int, other: T -> int)
    requires forall x :: x in xs ==> weight(x) == other(x)
    ensures Sum(xs, weight) == Sum(xs, other)
  {
    if xs != [] {
      SumSame(xs[1..], weight, other);
    }
  }

  // ---------------------------------------------------------------- counting places

  /** The places of a sequence that satisfy a predicate. */
  ghost function Places<T>(xs: seq<T>, p: T -> bool): set<nat> {
    set i: nat | i < |xs| && p(xs[i])
  }

  lemma PlacesNext<T>(xs: seq<T>, p: T -> bool)
    requires xs != []
    ensures |Places(xs, p)| == |Places(xs[..|xs| - 1], p)| + if p(xs[|xs| - 1]) then 1 else 0
  {
    var n := |xs| - 1;
    if p(xs[n]) {
      assert Places(xs, p) == Places(xs[..n], p) + {n};
    } else {
      assert Places(xs, p) == Places(xs[..n], p);
    }
  }
}
