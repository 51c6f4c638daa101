/** Waking stop-losses and the depth: a woken stop enters the depth with its whole quantity, and what is
    popped meanwhile leaves the queue with whatever it still had for sale. */
module DepthStops {
  import opened Orders
  import opened State
  import opened Depths
  import opened Matching
  import opened BookTheorems
  import opened NoOrderLost
  import opened DepthAgrees
  import opened Sums
  import Heap
  import Seqs

  function WholeQuantity(): Order -> int {
    (o: Order) => o.quantity
  }

  function OpenQuantity(pm: ProgressMap): Order -> int {
    (o: Order) => if Look(pm, o).isClosed then 0 else o.quantity
  }

  /** Only level 0 of the stops' own side moves, by all their quantities. */
  lemma {:induction false} AddStopsLevels(d: Depth, s: Side, xs: seq<Order>, k: nat)
    ensures var r := AddStops(d, s, xs);
            && Get(LevelOf(r, s).depth, k)
               == Get(LevelOf(d, s).depth, k) + (if k == 0 then Sum(xs, WholeQuantity()) else 0)
            && LevelOf(r, Opposite(s)) == LevelOf(d, Opposite(s))
    decreases |xs|
  {
    if xs != [] {
      AddStopsLevels(Added(d, true, s, xs[0].price, xs[0].quantity), s, xs[1..], k);
    }
  }

  /** What woken stops contribute to the sum over resting orders. */
  lemma {:induction false} WokenWeights(s: Side, xs: seq<Order>, pm: ProgressMap, k: nat)
    requires AllDormant(s, xs) && Unfilled(xs, pm)
    ensures OpenQty(TriggeredAll(xs), pm, k) == if k == 0 then Sum(xs, OpenQuantity(pm)) else 0
    decreases |xs|
  {
    if xs != [] {
      WokenWeights(s, xs[1..], pm, k);
      assert xs[0] in xs;
      OpenQtyCons(Triggered(xs[0]), TriggeredAll(xs[1..]), pm, k);
      assert TriggeredAll(xs) == [Triggered(xs[0])] + TriggeredAll(xs[1..]);
    }
  }

  lemma {:induction false} AllOpenIff(xs: seq<Order>, pm: ProgressMap)
    requires Unfilled(xs, pm)
    ensures Sum(xs, OpenQuantity(pm)) <= Sum(xs, WholeQuantity())
    ensures Sum(xs, OpenQuantity(pm)) == Sum(xs, WholeQuantity()) <==> forall o :: o in xs ==> !Look(pm, o).isClosed
    decreases |xs|
  {
    if xs != [] {
      AllOpenIff(xs[1..], pm);
      assert xs == [xs[0]] + xs[1..];
    }
  }

  /** What woken stops have in the depth beyond what is for sale. */
  function Phantom(w: seq<Order>, pm: ProgressMap): int {
    Sum(w, WholeQuantity()) - Sum(w, OpenQuantity(pm))
  }

  ghost predicate AllOpen(xs: seq<Order>, pm: ProgressMap) {
    forall o :: o in xs ==> !Look(pm, o).isClosed
  }

  ghost predicate AllClosed(xs: seq<Order>, pm: ProgressMap) {
    forall o :: o in xs ==> Look(pm, o).isClosed
  }

  // -------------------------------------------------------------------------
  // Woken stops join a side, and some orders leave it
  // -------------------------------------------------------------------------

  /** l2 is l1 with the woken stops added, live2 is live1 with them woken and out gone. */
  ghost predicate WokenInto(s: Side, l1: Level, live1: seq<Order>, l2: Level, live2: seq<Order>,
                            w: seq<Order>, out: seq<Order>) {
    && AllDormant(s, w)
    && (forall k: nat :: Get(l2.depth, k) == Get(l1.depth, k) + (if k == 0 then Sum(w, WholeQuantity()) else 0))
    && multiset(live2) + multiset(out) == multiset(live1) + multiset(TriggeredAll(w))
  }

  /** Then at each price the depth exceeds the sum by the cancelled stops and by what left open. */
  lemma WokenGap(s: Side, l1: Level, live1: seq<Order>, l2: Level, live2: seq<Order>, w: seq<Order>, out: seq<Order>,
                 pm: ProgressMap, k: nat)
    requires WokenInto(s, l1, live1, l2, live2, w, out) && Agrees(l1, live1, pm) && Unfilled(w, pm)
    ensures Get(l2.depth, k) == OpenQty(live2, pm, k) + OpenQty(out, pm, k) + if k == 0 then Phantom(w, pm) else 0
  {
    var weight := WeightAt(pm, k);
    assert multiset(live2 + out) == multiset(live1 + TriggeredAll(w));
    SumPermutes(live2 + out, live1 + TriggeredAll(w), weight);
    SumConcat(live2, out, weight);
    SumConcat(live1, TriggeredAll(w), weight);
    WokenWeights(s, w, pm, k);
    assert Get(l1.depth, k) == OpenQty(live1, pm, k);
  }

  /** An order that is open has something for sale. */
  lemma OpenWeighs(x: Order, out: seq<Order>, pm: ProgressMap)
    requires x in out && !Look(pm, x).isClosed && WellFilled(x, pm)
    ensures OpenQty(out, pm, Bucket(IsMarket(x.oType), x.price)) > 0
  {
    SumAtLeast(out, x, WeightAt(pm, Bucket(IsMarket(x.oType), x.price)));
  }

  /** Depth and queue still agree if and only if no woken stop had been cancelled and nothing open left. */
  lemma WokenAgreesIff(s: Side, l1: Level, live1: seq<Order>, l2: Level, live2: seq<Order>, w: seq<Order>, out: seq<Order>,
                       pm: ProgressMap)
    requires WokenInto(s, l1, live1, l2, live2, w, out) && Agrees(l1, live1, pm) && Unfilled(w, pm)
    requires forall x :: x in out ==> WellFilled(x, pm)
    ensures Agrees(l2, live2, pm) <==> AllOpen(w, pm) && AllClosed(out, pm)
  {
    hide WokenInto, Agrees, Unfilled;
    AllOpenIff(w, pm);
    forall k: nat ensures GapAt(l2, live2, pm, k, if k == 0 then Phantom(w, pm) else 0, OpenQty(out, pm, k)) {
      WokenGap(s, l1, live1, l2, live2, w, out, pm, k);
    }
    if !AllClosed(out, pm) {
      var x :| x in out && !Look(pm, x).isClosed;
      OpenWeighs(x, out, pm);
      GapDisagrees(l2, live2, pm, Bucket(IsMarket(x.oType), x.price), Phantom(w, pm), out);
    } else if Phantom(w, pm) > 0 {
      GapDisagrees(l2, live2, pm, 0, Phantom(w, pm), out);
    } else {
      NoGapAgrees(l2, live2, pm, out);
    }
  }

  ghost predicate GapAt(l: Level, live: seq<Order>, pm: ProgressMap, k: nat, phantom: int, left: int) {
    Get(l.depth, k) == OpenQty(live, pm, k) + left + phantom
  }

  lemma GapDisagrees(l: Level, live: seq<Order>, pm: ProgressMap, k: nat, phantom: int, out: seq<Order>)
    requires phantom >= 0 && (OpenQty(out, pm, k) > 0 || (k == 0 && phantom > 0))
    requires GapAt(l, live, pm, k, if k == 0 then phantom else 0, OpenQty(out, pm, k))
    ensures !Agrees(l, live, pm)
  {
    SumNonNegative(out, WeightAt(pm, k));
    assert Get(l.depth, k) != OpenQty(live, pm, k);
  }

  lemma NoGapAgrees(l: Level, live: seq<Order>, pm: ProgressMap, out: seq<Order>)
    requires AllClosed(out, pm)
    requires forall k: nat :: GapAt(l, live, pm, k, 0, OpenQty(out, pm, k))
    ensures Agrees(l, live, pm)
  {
    forall k: nat ensures Get(l.depth, k) == OpenQty(live, pm, k) {
      assert GapAt(l, live, pm, k, 0, OpenQty(out, pm, k));
      SumZero(out, WeightAt(pm, k));
    }
  }

  // -------------------------------------------------------------------------
  // What waking does to both sides
  // -------------------------------------------------------------------------

  function WokenOf(s: Side, h: Half, price: nat): seq<Order> {
    Woken(StopType(s), h.stops, price).0
  }

  lemma TriggerLevels(b: Book, price: nat, f: Desk, s: Side, k: nat)
    ensures Get(LevelOf(TriggerStopLosses(b, price, f).depth, s).depth, k)
            == Get(LevelOf(b.depth, s).depth, k) + if k == 0 then Sum(WokenOf(s, b.Of(s), price), WholeQuantity()) else 0
  {
    var w := WokenOf(AskSide, b.ask, price);
    AddStopsLevels(b.depth, AskSide, w, k);
    AddStopsLevels(AddStops(b.depth, AskSide, w), BidSide, WokenOf(BidSide, b.bid, price), k);
  }

  lemma AfterPopContents(s: Side, h: Half, topDone: bool, own: seq<Order>)
    requires Heap.IsHeap(LiveType(s), h.live) && h.live != []
    ensures multiset(AfterPop(s, h, topDone, own).live) + multiset(if topDone then [h.live[0]] else [])
            == multiset(h.live) + multiset(own)
  {
    if topDone {
      Heap.PopRefines(LiveType(s), h.live);
    }
    Heap.PushAllRefines(LiveType(s), if topDone then Heap.Pop(LiveType(s), h.live) else h.live, own);
    hide Heap.IsHeap, Heap.Pop, Heap.PushAll;
  }

  /** Waking, popping and putting back only move orders about. */
  lemma WakePopContents(s: Side, h: Half, price: nat, topDone: bool, own: seq<Order>)
    requires ValidHalf(s, h) && AllAwake(s, own) && h.live != []
    ensures var t := TriggerHalf(s, h, price);
            && AllDormant(s, WokenOf(s, h, price)) && t.live != []
            && multiset(AfterPop(s, t, topDone, own).live) + multiset(if topDone then [t.live[0]] else [])
               == multiset(h.live + own) + multiset(TriggeredAll(WokenOf(s, h, price)))
  {
    TriggerKeepsValid(s, h, price);
    TriggerContents(s, h, price);
    hide TriggerHalf, AfterPop, WokenOf, Heap.IsHeap, TriggeredAll;
    AfterPopContents(s, TriggerHalf(s, h, price), topDone, own);
  }

  lemma WokenAreReached(s: Side, h: Half, price: nat)
    requires ValidHalf(s, h)
    ensures forall o :: o in WokenOf(s, h, price) <==> o in h.stops && ShouldTrigger(price, o)
  {
    var (w, rest) := Woken(StopType(s), h.stops, price);
    WokenFacts(s, h.stops, price);
    Seqs.SameMembers(h.stops, w, rest);
  }

  /** If a woken stop ranks above the head, it or another woken one is the new head. */
  lemma OvertakerIsWoken(s: Side, h: Half, price: nat)
    requires ValidHalf(s, h) && h.live != []
    ensures var t := TriggerHalf(s, h, price);
            t.live != [] && (t.live[0] == h.live[0] || t.live[0] in TriggeredAll(WokenOf(s, h, price)))
  {
    var t, tw := TriggerHalf(s, h, price), TriggeredAll(WokenOf(s, h, price));
    TriggerKeepsValid(s, h, price);
    WakeOvertakesIff(s, h, price);
    Heap.PushAllRefines(LiveType(s), h.live, tw);
    Seqs.SameMembers(t.live, h.live, tw);
    assert t.live[0] in t.live;
    if t.live[0] != h.live[0] {
      var x :| x in h.stops && ShouldTrigger(price, x) && Less(LiveType(s), h.live[0], Triggered(x));
      TriggerExact(s, h, price);
      Heap.HeadMaximal(LiveType(s), t.live);
      Heap.HeadMaximal(LiveType(s), h.live);
      if t.live[0] in h.live {
        LessIsStrictWeakOrder(LiveType(s), h.live[0], t.live[0], Triggered(x));
      }
    }
  }

  lemma {:induction false} TriggeredMember(xs: seq<Order>, y: Order) returns (x: Order)
    requires y in TriggeredAll(xs)
    ensures x in xs && y == Triggered(x)
  {
    var i :| 0 <= i < |TriggeredAll(xs)| && TriggeredAll(xs)[i] == y;
    x := xs[i];
  }

  /** No stop of this side that the price reaches was cancelled while dormant. */
  ghost predicate NoneCancelled(h: Half, pm: ProgressMap, price: nat) {
    forall o :: o in h.stops && ShouldTrigger(price, o) ==> !Look(pm, o).isClosed
  }

  lemma NoneCancelledIff(s: Side, h: Half, price: nat, pm: ProgressMap)
    requires ValidHalf(s, h)
    ensures NoneCancelled(h, pm, price) <==> AllOpen(WokenOf(s, h, price), pm)
  {
    WokenAreReached(s, h, price);
  }

  lemma WokenUnfilled(s: Side, h: Half, price: nat, pm: ProgressMap)
    requires ValidHalf(s, h) && Unfilled(h.stops, pm)
    ensures Unfilled(WokenOf(s, h, price), pm)
  {
    WokenAreReached(s, h, price);
  }

  /** Waking stop-losses keeps depth and book in agreement if and only if none of those woken had
      been cancelled while dormant; such a one stays in the depth although nothing of it is for sale. */
  lemma WakingKeepsDepthIff(d: Depth, s: Side, h: Half, price: nat, pm: ProgressMap)
    requires ValidHalf(s, h) && Agrees(LevelOf(d, s), h.live, pm) && Unfilled(h.stops, pm)
    ensures var w := WokenOf(s, h, price);
            Agrees(LevelOf(AddStops(d, s, w), s), TriggerHalf(s, h, price).live, pm) <==> NoneCancelled(h, pm, price)
  {
    var w, live := WokenOf(s, h, price), TriggerHalf(s, h, price).live;
    forall k: nat ensures Get(LevelOf(AddStops(d, s, w), s).depth, k)
                          == Get(LevelOf(d, s).depth, k) + if k == 0 then Sum(w, WholeQuantity()) else 0 {
      AddStopsLevels(d, s, w, k);
    }
    TriggerContents(s, h, price);
    NoneCancelledIff(s, h, price, pm);
    WokenUnfilled(s, h, price, pm);
    hide TriggerHalf, WokenOf, AddStops, ValidHalf, Agrees, LevelOf;
    assert multiset(live) + multiset([]) == multiset(live);
    WokenAgreesIff(s, LevelOf(d, s), h.live, LevelOf(AddStops(d, s, w), s), live, w, [], pm);
  }

  lemma TriggerContents(s: Side, h: Half, price: nat)
    requires ValidHalf(s, h)
    ensures AllDormant(s, WokenOf(s, h, price))
    ensures multiset(TriggerHalf(s, h, price).live) == multiset(h.live) + multiset(TriggeredAll(WokenOf(s, h, price)))
  {
    WokenFacts(s, h.stops, price);
    Heap.PushAllRefines(LiveType(s), h.live, TriggeredAll(WokenOf(s, h, price)));
  }
}
