/** The binary heap of matchingengine/pqueue.go on values: position k of the source's 1-indexed
    slice is At(s, k); the slice's unused nil slot 0 is dropped. */
module Heap {
  import opened Orders

  function At(s: seq<Order>, k: int): Order
    requires 1 <= k <= |s|
  {
    s[k - 1]
  }

  function Exch(s: seq<Order>, i: int, j: int): (r: seq<Order>)
    requires 1 <= i <= |s| && 1 <= j <= |s|
    ensures |r| == |s|
  {
    s[i - 1 := At(s, j)][j - 1 := At(s, i)]
  }

  function Swim(t: PQType, s: seq<Order>, k: int): (r: seq<Order>)
    requires 0 <= k <= |s|
    ensures |r| == |s|
    decreases k
  {
    if k > 1 && Less(t, At(s, k / 2), At(s, k)) then Swim(t, Exch(s, k / 2, k), k / 2) else s
  }

  /** The child that sink compares with: the right one only when the left ranks below it. */
  function TopChild(t: PQType, s: seq<Order>, k: int): (j: int)
    requires 1 <= k && 2 * k <= |s|
    ensures k < j <= |s| && j / 2 == k
  {
    if 2 * k < |s| && Less(t, At(s, 2 * k), At(s, 2 * k + 1)) then 2 * k + 1 else 2 * k
  }

  function Sink(t: PQType, s: seq<Order>, k: int): (r: seq<Order>)
    requires 1 <= k
    ensures |r| == |s|
    decreases |s| - k
  {
    if 2 * k > |s| then s
    else
      var j := TopChild(t, s, k);
      if !Less(t, At(s, k), At(s, j)) then s else Sink(t, Exch(s, k, j), j)
  }

  function Push(t: PQType, s: seq<Order>, o: Order): (r: seq<Order>)
    ensures |r| == |s| + 1
  {
    Swim(t, s + [o], |s| + 1)
  }

  /** What remains after popping s[0]. */
  function Pop(t: PQType, s: seq<Order>): (r: seq<Order>)
    requires s != []
    ensures |r| == |s| - 1
  {
    Sink(t, Exch(s, 1, |s|)[..|s| - 1], 1)
  }

  /** The order at k does not rank above its parent. */
  ghost predicate Ordered(t: PQType, s: seq<Order>, k: int)
    requires 2 <= k <= |s|
  {
    !Less(t, At(s, k / 2), At(s, k))
  }

  ghost predicate IsHeap(t: PQType, s: seq<Order>) {
    forall k :: 2 <= k <= |s| ==> Ordered(t, s, k)
  }

  // -------------------------------------------------------------------------
  // Contents
  // -------------------------------------------------------------------------

  lemma ExchContents(s: seq<Order>, i: int, j: int)
    requires 1 <= i <= |s| && 1 <= j <= |s|
    ensures multiset(Exch(s, i, j)) == multiset(s)
  {
  }

  lemma {:induction false} SwimContents(t: PQType, s: seq<Order>, k: int)
    requires 0 <= k <= |s|
    ensures multiset(Swim(t, s, k)) == multiset(s)
    decreases k
  {
    if k > 1 && Less(t, At(s, k / 2), At(s, k)) {
      ExchContents(s, k / 2, k);
      SwimContents(t, Exch(s, k / 2, k), k / 2);
    }
  }

  lemma {:induction false} SinkContents(t: PQType, s: seq<Order>, k: int)
    requires 1 <= k
    ensures multiset(Sink(t, s, k)) == multiset(s)
    decreases |s| - k
  {
    if 2 * k <= |s| {
      var j := TopChild(t, s, k);
      ExchContents(s, k, j);
      SinkContents(t, Exch(s, k, j), j);
    }
  }

  // -------------------------------------------------------------------------
  // Heap order
  // -------------------------------------------------------------------------

  /** Heap order everywhere except between k and its parent; k's parent dominates k's children. */
  ghost predicate HeapUpTo(t: PQType, s: seq<Order>, k: int) {
    && (forall i :: 2 <= i <= |s| && i != k ==> Ordered(t, s, i))
    && (forall i :: 2 <= i <= |s| && i / 2 == k && k >= 2 ==> !Less(t, At(s, k / 2), At(s, i)))
  }

  /** Heap order everywhere except between k and its children; k's parent dominates k's children. */
  ghost predicate HeapDownFrom(t: PQType, s: seq<Order>, k: int) {
    && (forall i :: 2 <= i <= |s| && i / 2 != k ==> Ordered(t, s, i))
    && (forall i :: 2 <= i <= |s| && i / 2 == k && k >= 2 ==> !Less(t, At(s, k / 2), At(s, i)))
  }

  lemma SwimStep(t: PQType, s: seq<Order>, k: int)
    requires 2 <= k <= |s| && HeapUpTo(t, s, k) && Less(t, At(s, k / 2), At(s, k))
    ensures HeapUpTo(t, Exch(s, k / 2, k), k / 2)
  {
    var p, r := k / 2, Exch(s, k / 2, k);
    forall i | 2 <= i <= |s| && i != p ensures Ordered(t, r, i) {
      if 2 <= i && i != k { assert Ordered(t, s, i); }
      LessIsStrictWeakOrder(t, At(s, k), At(s, p), At(s, i));
      LessIsStrictWeakOrder(t, At(s, p), At(s, k), At(s, p));
    }
    forall i | 2 <= i <= |s| && i / 2 == p && p >= 2 ensures !Less(t, At(r, p / 2), At(r, i)) {
      assert Ordered(t, s, p);
      if i != k { assert Ordered(t, s, i); }
      LessIsStrictWeakOrder(t, At(s, p / 2), At(s, p), At(s, i));
    }
  }

  lemma {:induction false} SwimHeap(t: PQType, s: seq<Order>, k: int)
    requires 1 <= k <= |s| && HeapUpTo(t, s, k)
    ensures IsHeap(t, Swim(t, s, k))
    decreases k
  {
    if k > 1 && Less(t, At(s, k / 2), At(s, k)) {
      SwimStep(t, s, k);
      SwimHeap(t, Exch(s, k / 2, k), k / 2);
    }
  }

  lemma SinkStep(t: PQType, s: seq<Order>, k: int)
    requires 1 <= k && 2 * k <= |s| && HeapDownFrom(t, s, k)
    requires Less(t, At(s, k), At(s, TopChild(t, s, k)))
    ensures HeapDownFrom(t, Exch(s, k, TopChild(t, s, k)), TopChild(t, s, k))
  {
    var j := TopChild(t, s, k);
    var r := Exch(s, k, j);
    forall i | 2 <= i <= |s| && i / 2 != j ensures Ordered(t, r, i) {
      if i / 2 != k { assert Ordered(t, s, i); }
      LessIsStrictWeakOrder(t, At(s, k), At(s, j), At(s, i));
      LessIsStrictWeakOrder(t, At(s, 2 * k), At(s, j), At(s, i));
    }
    forall i | 2 <= i <= |s| && i / 2 == j ensures !Less(t, At(r, j / 2), At(r, i)) {
      assert Ordered(t, s, i);
    }
  }

  lemma {:induction false} SinkHeap(t: PQType, s: seq<Order>, k: int)
    requires 1 <= k && HeapDownFrom(t, s, k)
    ensures IsHeap(t, Sink(t, s, k))
    decreases |s| - k
  {
    if 2 * k <= |s| {
      var j := TopChild(t, s, k);
      if Less(t, At(s, k), At(s, j)) {
        SinkStep(t, s, k);
        SinkHeap(t, Exch(s, k, j), j);
      } else {
        forall i | 2 <= i <= |s| && i / 2 == k ensures Ordered(t, s, i) {
          LessIsStrictWeakOrder(t, At(s, k), At(s, j), At(s, i));
          LessIsStrictWeakOrder(t, At(s, 2 * k), At(s, j), At(s, i));
        }
      }
    }
  }

  // -------------------------------------------------------------------------
  // The queue is a priority multiset
  // -------------------------------------------------------------------------

  lemma {:induction false} HeapTop(t: PQType, s: seq<Order>, k: int)
    requires IsHeap(t, s) && 1 <= k <= |s|
    ensures !Less(t, s[0], At(s, k))
    decreases k
  {
    LessIsStrictWeakOrder(t, s[0], s[0], s[0]);
    if k > 1 {
      HeapTop(t, s, k / 2);
      assert Ordered(t, s, k);
      LessIsStrictWeakOrder(t, s[0], At(s, k / 2), At(s, k));
    }
  }

  /** Head is maximal: nothing in the queue ranks above it. */
  lemma HeadMaximal(t: PQType, s: seq<Order>)
    requires IsHeap(t, s) && s != []
    ensures forall o :: o in s ==> !Less(t, s[0], o)
  {
    forall o | o in s ensures !Less(t, s[0], o) {
      var i :| 0 <= i < |s| && s[i] == o;
      HeapTop(t, s, i + 1);
      assert At(s, i + 1) == o;
    }
  }

  /** Push adds exactly the pushed order and keeps heap order. */
  lemma PushRefines(t: PQType, s: seq<Order>, o: Order)
    requires IsHeap(t, s)
    ensures IsHeap(t, Push(t, s, o))
    ensures multiset(Push(t, s, o)) == multiset(s) + multiset{o}
  {
    var u := s + [o];
    forall i | 2 <= i <= |u| && i != |u| ensures Ordered(t, u, i) {
      assert Ordered(t, s, i);
      assert At(u, i / 2) == At(s, i / 2) && At(u, i) == At(s, i);
    }
    SwimHeap(t, u, |u|);
    SwimContents(t, u, |u|);
  }

  /** Pop removes exactly the head, which nothing in the queue ranks above, and keeps heap order. */
  lemma PopRefines(t: PQType, s: seq<Order>)
    requires IsHeap(t, s) && s != []
    ensures IsHeap(t, Pop(t, s))
    ensures multiset(s) == multiset(Pop(t, s)) + multiset{s[0]}
    ensures forall o :: o in Pop(t, s) ==> !Less(t, s[0], o)
  {
    var e := Exch(s, 1, |s|);
    var u := e[..|s| - 1];
    forall i | 2 <= i <= |u| && i / 2 != 1 ensures Ordered(t, u, i) {
      assert Ordered(t, s, i);
      assert At(u, i / 2) == At(s, i / 2) && At(u, i) == At(s, i);
    }
    if |u| > 0 {
      SinkHeap(t, u, 1);
      SinkContents(t, u, 1);
    }
    ExchContents(s, 1, |s|);
    assert e == u + [s[0]];
    HeadMaximal(t, s);
    forall o | o in Pop(t, s) ensures !Less(t, s[0], o) {
      assert o in multiset(Pop(t, s));
      assert o in multiset(s);
    }
  }

  /** Everything the queue pops, in order, until it is empty. */
  function Drain(t: PQType, s: seq<Order>): (r: seq<Order>)
    ensures |r| == |s|
    decreases |s|
  {
    if s == [] then [] else [s[0]] + Drain(t, Pop(t, s))
  }

  lemma {:induction false} DrainContents(t: PQType, s: seq<Order>)
    requires IsHeap(t, s)
    ensures multiset(Drain(t, s)) == multiset(s)
    decreases |s|
  {
    if s != [] {
      PopRefines(t, s);
      DrainContents(t, Pop(t, s));
    }
  }

  ghost predicate BestFirst(t: PQType, d: seq<Order>) {
    forall i, j :: 0 <= i < j < |d| ==> !Less(t, d[i], d[j])
  }

  lemma BestFirstCons(t: PQType, o: Order, d: seq<Order>)
    requires BestFirst(t, d) && forall x :: x in d ==> !Less(t, o, x)
    ensures BestFirst(t, [o] + d)
  {
    var e := [o] + d;
    forall i, j | 0 <= i < j < |e| ensures !Less(t, e[i], e[j]) {
      assert e[j] == d[j - 1];
      if i > 0 { assert e[i] == d[i - 1]; }
    }
  }

  /** Popping until empty yields a permutation of the queue, best first. */
  lemma {:induction false} DrainSorts(t: PQType, s: seq<Order>)
    requires IsHeap(t, s)
    ensures multiset(Drain(t, s)) == multiset(s) && BestFirst(t, Drain(t, s))
    decreases |s|
  {
    DrainContents(t, s);
    if s != [] {
      var rest := Pop(t, s);
      PopRefines(t, s);
      DrainSorts(t, rest);
      var d := Drain(t, rest);
      forall x | x in d ensures !Less(t, s[0], x) {
        assert x in multiset(d);
        assert x in rest;
      }
      BestFirstCons(t, s[0], d);
    }
  }

  // -------------------------------------------------------------------------
  // Who is at the head after pushes
  // -------------------------------------------------------------------------

  function PushAll(t: PQType, s: seq<Order>, xs: seq<Order>): (r: seq<Order>)
    ensures |r| == |s| + |xs|
    decreases |xs|
  {
    if xs == [] then s else PushAll(t, Push(t, s, xs[0]), xs[1..])
  }

  lemma {:induction false} PushAllRefines(t: PQType, s: seq<Order>, xs: seq<Order>)
    requires IsHeap(t, s)
    ensures IsHeap(t, PushAll(t, s, xs))
    ensures multiset(PushAll(t, s, xs)) == multiset(s) + multiset(xs)
    decreases |xs|
  {
    if xs != [] {
      PushRefines(t, s, xs[0]);
      PushAllRefines(t, Push(t, s, xs[0]), xs[1..]);
      assert xs == [xs[0]] + xs[1..];
    }
  }

  /** Swimming leaves the head alone unless the swimming order ranks above it. */
  lemma {:induction false} SwimKeepsHead(t: PQType, s: seq<Order>, k: int)
    requires 1 < k <= |s| && !Less(t, s[0], At(s, k))
    ensures Swim(t, s, k)[0] == s[0]
    decreases k
  {
    if Less(t, At(s, k / 2), At(s, k)) {
      var e := Exch(s, k / 2, k);
      assert k / 2 > 1;
      assert e[0] == s[0] && At(e, k / 2) == At(s, k);
      SwimKeepsHead(t, e, k / 2);
    }
  }

  lemma {:induction false} PushAllKeepsHead(t: PQType, s: seq<Order>, xs: seq<Order>)
    requires s != [] && forall x :: x in xs ==> !Less(t, s[0], x)
    ensures PushAll(t, s, xs)[0] == s[0]
    decreases |xs|
  {
    if xs != [] {
      SwimKeepsHead(t, s + [xs[0]], |s| + 1);
      PushAllKeepsHead(t, Push(t, s, xs[0]), xs[1..]);
    }
  }

  /** After pushing xs the old head is still the head if and only if no pushed order ranks
      above it; ties never displace it. */
  lemma HeadSurvivesIff(t: PQType, s: seq<Order>, xs: seq<Order>)
    requires IsHeap(t, s) && s != []
    ensures PushAll(t, s, xs)[0] == s[0] <==> forall x :: x in xs ==> !Less(t, s[0], x)
  {
    if forall x :: x in xs ==> !Less(t, s[0], x) {
      PushAllKeepsHead(t, s, xs);
    } else {
      var x :| x in xs && Less(t, s[0], x);
      var r := PushAll(t, s, xs);
      PushAllRefines(t, s, xs);
      assert x in multiset(r);
      HeadMaximal(t, r);
    }
  }

  /** A newcomer that ranks above the head becomes the head. */
  lemma PushTakesHead(t: PQType, s: seq<Order>, o: Order)
    requires IsHeap(t, s) && s != [] && Less(t, s[0], o)
    ensures Push(t, s, o)[0] == o
  {
    var r := Push(t, s, o);
    PushRefines(t, s, o);
    HeadMaximal(t, r);
    HeadMaximal(t, s);
    hide IsHeap, Push;
    assert r[0] in multiset(r) && o in multiset(r);
    if r[0] != o {
      assert r[0] in multiset(s);
      LessIsStrictWeakOrder(t, s[0], r[0], o);
    }
  }

  /** The first of several, if none of the others ranks above it, becomes the head if it ranks above the old
      one. */
  lemma PushAllTakesHead(t: PQType, s: seq<Order>, xs: seq<Order>)
    requires IsHeap(t, s) && s != [] && xs != [] && Less(t, s[0], xs[0])
    requires forall x :: x in xs ==> !Less(t, xs[0], x)
    ensures PushAll(t, s, xs)[0] == xs[0]
  {
    PushTakesHead(t, s, xs[0]);
    PushAllKeepsHead(t, Push(t, s, xs[0]), xs[1..]);
  }
}
