/** What matching keeps: the right counter-order, no order lost, stop-losses fired exactly. */
module BookTheorems {
  import opened Orders
  import opened Matching
  import Heap
  import Seqs

  /** One side: two heaps of that side's orders, the dormant stop-losses apart from the others. */
  ghost predicate ValidHalf(s: Side, h: Half) {
    && Heap.IsHeap(LiveType(s), h.live) && Heap.IsHeap(StopType(s), h.stops)
    && AllAwake(s, h.live) && AllDormant(s, h.stops)
  }

  ghost predicate AllAwake(s: Side, xs: seq<Order>) {
    forall o :: o in xs ==> o.id.side == s && o.oType != StopLoss
  }

  ghost predicate AllDormant(s: Side, xs: seq<Order>) {
    forall o :: o in xs ==> o.id.side == s && o.oType == StopLoss
  }

  ghost predicate Valid(b: Book) {
    forall s: Side :: ValidHalf(s, b.Of(s))
  }

  // -------------------------------------------------------------------------
  // Choosing the counter-order
  // -------------------------------------------------------------------------

  lemma {:induction false} SkipOwnFacts(t: PQType, q: seq<Order>, u: nat)
    requires Heap.IsHeap(t, q)
    ensures var (own, rest) := SkipOwn(t, q, u);
            && Heap.IsHeap(t, rest)
            && multiset(q) == multiset(own) + multiset(rest)
            && (forall o :: o in own ==> o.userId == u)
            && (forall o, c :: o in own && c in rest ==> !Less(t, o, c))
    decreases |q|
  {
    if q != [] && q[0].userId == u {
      var tail := Heap.Pop(t, q);
      Heap.PopRefines(t, q);
      SkipOwnFacts(t, tail, u);
      var (own, rest) := SkipOwn(t, tail, u);
      forall c | c in rest ensures !Less(t, q[0], c) {
        assert c in multiset(rest);
        assert c in multiset(tail);
      }
    }
  }

  /** The skipped orders go back: the queue is the same multiset as before the search. */
  lemma PutBackRestores(t: PQType, q: seq<Order>, u: nat)
    requires Heap.IsHeap(t, q)
    ensures var (own, rest) := SkipOwn(t, q, u);
            var back := Heap.PushAll(t, rest, own);
            Heap.IsHeap(t, back) && multiset(back) == multiset(q)
  {
    SkipOwnFacts(t, q, u);
    var (own, rest) := SkipOwn(t, q, u);
    Heap.PushAllRefines(t, rest, own);
  }

  /** The chosen counter-order is best among other users' orders, there is none exactly when no
      other user's order matches, and it never belongs to the incoming order's user. */
  lemma TopMatchCorrect(b: Book, o: Order)
    requires Valid(b)
    ensures var s := Opposite(o.id.side);
            var top := TopMatch(b, o).0;
            && (top.Some? ==>
                  && top.value in b.Live(s) && top.value.userId != o.userId && Matches(o, top.value)
                  && forall c :: c in b.Live(s) && c.userId != o.userId ==> !Less(LiveType(s), top.value, c))
            && (top.None? <==> forall c :: c in b.Live(s) && c.userId != o.userId ==> !Matches(o, c))
  {
    var s := Opposite(o.id.side);
    var q := b.Live(s);
    assert ValidHalf(s, b.Of(s));
    SkipOwnFacts(LiveType(s), q, o.userId);
    var (own, rest) := SkipOwn(LiveType(s), q, o.userId);
    forall c | c in q && c.userId != o.userId ensures c in rest {
      assert c in multiset(q);
      assert c in multiset(own) || c in multiset(rest);
    }
    if rest != [] {
      Heap.HeadMaximal(LiveType(s), rest);
      assert rest[0] in multiset(rest);
      assert rest[0] in multiset(q);
      if !Matches(o, rest[0]) {
        forall c | c in q && c.userId != o.userId ensures !Matches(o, c) {
          BestDecidesMatch(o, rest[0], c);
        }
      }
    }
  }

  // -------------------------------------------------------------------------
  // Stop-losses
  // -------------------------------------------------------------------------

  lemma {:induction false} WokenFacts(s: Side, stops: seq<Order>, price: nat)
    requires Heap.IsHeap(StopType(s), stops) && AllDormant(s, stops)
    ensures var (w, rest) := Woken(StopType(s), stops, price);
            && Heap.IsHeap(StopType(s), rest) && AllDormant(s, rest) && AllDormant(s, w)
            && multiset(stops) == multiset(w) + multiset(rest)
            && (forall o :: o in w ==> ShouldTrigger(price, o))
            && (forall o :: o in rest ==> !ShouldTrigger(price, o))
    decreases |stops|
  {
    var t := StopType(s);
    if stops != [] {
      Heap.HeadMaximal(t, stops);
      if ShouldTrigger(price, stops[0]) {
        var tail := Heap.Pop(t, stops);
        Heap.PopRefines(t, stops);
        forall o | o in tail ensures o in stops {
          assert o in multiset(tail);
          assert o in multiset(stops);
        }
        WokenFacts(s, tail, price);
      }
    }
  }

  /** Between looking at the head and popping, another thread may push a stop: if the head was to
      be triggered, so is whatever gets popped. */
  lemma RacingPushIsSafe(s: Side, stops: seq<Order>, price: nat, pushed: Order)
    requires Heap.IsHeap(StopType(s), stops) && AllDormant(s, stops) && stops != []
    requires pushed.id.side == s && pushed.oType == StopLoss
    requires ShouldTrigger(price, stops[0])
    ensures ShouldTrigger(price, Heap.Push(StopType(s), stops, pushed)[0])
  {
    var t := StopType(s);
    var q := Heap.Push(t, stops, pushed);
    Heap.PushRefines(t, stops, pushed);
    Heap.HeadMaximal(t, q);
    Seqs.SameMembers(q, stops, [pushed]);
    assert stops[0] in q && q[0] in q;
    assert q[0].oType == StopLoss && q[0].id.side == s;
  }

  lemma {:induction false} TriggeredAllContents(xs: seq<Order>, ys: seq<Order>)
    requires multiset(xs) == multiset(ys)
    ensures multiset(TriggeredAll(xs)) == multiset(TriggeredAll(ys))
    decreases |xs|
  {
    if xs != [] {
      assert xs[0] in multiset(xs);
      var i := Seqs.SplitAt(ys, xs[0]);
      Seqs.TailMultiset(xs);
      TriggeredAllContents(xs[1..], ys[..i] + ys[i + 1..]);
      TriggeredAllConcat(ys[..i] + [xs[0]], ys[i + 1..]);
      TriggeredAllConcat(ys[..i], [xs[0]]);
      TriggeredAllConcat(ys[..i], ys[i + 1..]);
    }
  }

  lemma TriggeredAllConcat(xs: seq<Order>, ys: seq<Order>)
    ensures TriggeredAll(xs + ys) == TriggeredAll(xs) + TriggeredAll(ys)
  {
  }

  /** A side's orders, dormant stops counted as they will look once active. */
  ghost function Population(h: Half): multiset<Order> {
    multiset(h.live) + multiset(TriggeredAll(h.stops))
  }

  lemma PushAllKeepsSide(s: Side, live: seq<Order>, xs: seq<Order>)
    requires Heap.IsHeap(LiveType(s), live) && AllAwake(s, live) && AllAwake(s, xs)
    ensures var r := Heap.PushAll(LiveType(s), live, xs);
            Heap.IsHeap(LiveType(s), r) && AllAwake(s, r)
  {
    Heap.PushAllRefines(LiveType(s), live, xs);
    Seqs.SameMembers(Heap.PushAll(LiveType(s), live, xs), live, xs);
  }

  /** Waking keeps both queues valid. */
  lemma TriggerKeepsValid(s: Side, h: Half, price: nat)
    requires ValidHalf(s, h)
    ensures ValidHalf(s, TriggerHalf(s, h, price))
  {
    var (w, rest) := Woken(StopType(s), h.stops, price);
    WokenFacts(s, h.stops, price);
    PushAllKeepsSide(s, h.live, TriggeredAll(w));
  }

  /** Waking only moves orders from the dormant to the live queue. */
  lemma TriggerKeepsPopulation(s: Side, h: Half, price: nat)
    requires ValidHalf(s, h)
    ensures Population(TriggerHalf(s, h, price)) == Population(h)
  {
    var (w, rest) := Woken(StopType(s), h.stops, price);
    WokenFacts(s, h.stops, price);
    Heap.PushAllRefines(LiveType(s), h.live, TriggeredAll(w));
    assert multiset(w + rest) == multiset(h.stops);
    TriggeredAllContents(h.stops, w + rest);
    TriggeredAllConcat(w, rest);
  }

  /** Waking stop-losses at a price is exact: the dormant stops left are those that do not
      qualify, and every one that did is now active in the live queue. */
  lemma TriggerExact(s: Side, h: Half, price: nat)
    requires ValidHalf(s, h)
    ensures var r := TriggerHalf(s, h, price);
            && (forall o :: o in r.stops <==> o in h.stops && !ShouldTrigger(price, o))
            && (forall o :: o in h.stops && ShouldTrigger(price, o) ==> Triggered(o) in r.live)
  {
    var (w, rest) := Woken(StopType(s), h.stops, price);
    var tw := TriggeredAll(w);
    WokenFacts(s, h.stops, price);
    Heap.PushAllRefines(LiveType(s), h.live, tw);
    Seqs.SameMembers(Heap.PushAll(LiveType(s), h.live, tw), h.live, tw);
    Seqs.SameMembers(h.stops, w, rest);
    forall o | o in w ensures Triggered(o) in tw {
      var i :| 0 <= i < |w| && w[i] == o;
      assert tw[i] == Triggered(o);
    }
  }
}
