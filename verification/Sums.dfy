/** Weighted sums over sequences. */
module Sums {
  import Seqs

  function Sum<T>(xs: seq<T>, w: T -> int): int
    decreases |xs|
  {
    if xs == [] then 0 else w(xs[0]) + Sum(xs[1..], w)
  }

  lemma {:induction false} SumConcat<T>(xs: seq<T>, ys: seq<T>, w: T -> int)
    ensures Sum(xs + ys, w) == Sum(xs, w) + Sum(ys, w)
    decreases |xs|
  {
    if xs == [] {
      assert xs + ys == ys;
    } else {
      assert (xs + ys)[1..] == xs[1..] + ys;
      SumConcat(xs[1..], ys, w);
    }
  }

  lemma SumAppend<T>(xs: seq<T>, x: T, w: T -> int)
    ensures Sum(xs + [x], w) == Sum(xs, w) + w(x)
  {
    SumConcat(xs, [x], w);
  }

  /** The sum does not depend on the order of the elements. */
  lemma {:induction false} SumPermutes<T>(xs: seq<T>, ys: seq<T>, w: T -> int)
    requires multiset(xs) == multiset(ys)
    ensures Sum(xs, w) == Sum(ys, w)
    decreases |xs|
  {
    if xs != [] {
      assert xs[0] in multiset(xs);
      var i := Seqs.SplitAt(ys, xs[0]);
      Seqs.TailMultiset(xs);
      SumPermutes(xs[1..], ys[..i] + ys[i + 1..], w);
      SumConcat(ys[..i], ys[i + 1..], w);
      SumConcat(ys[..i] + [xs[0]], ys[i + 1..], w);
      SumAppend(ys[..i], xs[0], w);
    }
  }

  lemma {:induction false} SumSame<T>(xs: seq<T>, w: T -> int, w': T -> int)
    requires forall x :: x in xs ==> w(x) == w'(x)
    ensures Sum(xs, w) == Sum(xs, w')
    decreases |xs|
  {
    if xs != [] {
      SumSame(xs[1..], w, w');
    }
  }

  /** Changing the weight of the element at i alone changes the sum by the difference. */
  lemma SumChangesOne<T>(xs: seq<T>, i: nat, w: T -> int, w': T -> int)
    requires i < |xs|
    requires forall j :: 0 <= j < |xs| && j != i ==> w(xs[j]) == w'(xs[j])
    ensures Sum(xs, w') == Sum(xs, w) - w(xs[i]) + w'(xs[i])
  {
    var a, c := xs[..i], xs[i + 1..];
    assert xs == a + [xs[i]] + c;
    SumConcat(a + [xs[i]], c, w);
    SumConcat(a + [xs[i]], c, w');
    SumAppend(a, xs[i], w);
    SumAppend(a, xs[i], w');
    SumSame(a, w, w');
    SumSame(c, w, w');
  }

  lemma {:induction false} SumZero<T>(xs: seq<T>, w: T -> int)
    requires forall x :: x in xs ==> w(x) == 0
    ensures Sum(xs, w) == 0
    decreases |xs|
  {
    if xs != [] {
      SumZero(xs[1..], w);
    }
  }

  lemma {:induction false} SumNonNegative<T>(xs: seq<T>, w: T -> int)
    requires forall x :: x in xs ==> w(x) >= 0
    ensures Sum(xs, w) >= 0
    decreases |xs|
  {
    if xs != [] {
      SumNonNegative(xs[1..], w);
    }
  }

  lemma {:induction false} SumAtLeast<T>(xs: seq<T>, x: T, w: T -> int)
    requires x in xs && forall y :: y in xs ==> w(y) >= 0
    ensures w(x) <= Sum(xs, w)
    decreases |xs|
  {
    if x == xs[0] {
      SumNonNegative(xs[1..], w);
    } else {
      SumAtLeast(xs[1..], x, w);
    }
  }

  /** Replacing one element changes the sum by the difference. */
  lemma SumUpdate<T>(xs: seq<T>, i: nat, y: T, w: T -> int)
    requires i < |xs|
    ensures Sum(xs[i := y], w) == Sum(xs, w) - w(xs[i]) + w(y)
  {
    var a, c := xs[..i], xs[i + 1..];
    assert xs == a + [xs[i]] + c && xs[i := y] == a + [y] + c;
    SumConcat(a + [xs[i]], c, w);
    SumConcat(a + [y], c, w);
    SumAppend(a, xs[i], w);
    SumAppend(a, y, w);
  }

  // -------------------------------------------------------------------------
  // Sums over maps
  // -------------------------------------------------------------------------

  ghost function MapSum<K>(m: map<K, int>, p: K -> bool): int
    decreases |m|
  {
    if m == map[] then 0
    else
      var k :| k in m;
      (if p(k) then m[k] else 0) + MapSum(m - {k}, p)
  }

  lemma Shrinks<K>(m: map<K, int>, k: K)
    requires k in m
    ensures |m - {k}| < |m|
  {
    assert (m - {k}).Keys == m.Keys - {k};
  }

  /** Any key may be taken out first. */
  lemma {:induction false} MapSumWithout<K>(m: map<K, int>, k: K, p: K -> bool)
    requires k in m
    ensures MapSum(m, p) == (if p(k) then m[k] else 0) + MapSum(m - {k}, p)
    decreases |m|
  {
    var j :| j in m && MapSum(m, p) == (if p(j) then m[j] else 0) + MapSum(m - {j}, p);
    if j != k {
      Shrinks(m, j);
      Shrinks(m, k);
      MapSumWithout(m - {j}, k, p);
      MapSumWithout(m - {k}, j, p);
      assert m - {j} - {k} == m - {k} - {j};
    }
  }

  lemma MapSumUpdate<K>(m: map<K, int>, k: K, v: int, p: K -> bool)
    ensures MapSum(m[k := v], p) == MapSum(m, p) + (if p(k) then v - (if k in m then m[k] else 0) else 0)
  {
    MapSumWithout(m[k := v], k, p);
    if k in m {
      MapSumWithout(m, k, p);
      assert m[k := v] - {k} == m - {k};
    } else {
      assert m[k := v] - {k} == m;
    }
  }

  lemma MapSumRemove<K>(m: map<K, int>, k: K, p: K -> bool)
    requires k in m
    ensures MapSum(m - {k}, p) == MapSum(m, p) - if p(k) then m[k] else 0
  {
    MapSumWithout(m, k, p);
  }
}
