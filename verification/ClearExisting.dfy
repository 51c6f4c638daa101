/** Start-up matching of the loaded orders: what is conserved, and when the popped ask is the
    finished one. */
module ClearExisting {
  import opened Orders
  import opened Wrappers
  import opened State
  import opened Matching
  import opened BookTheorems
  import Heap
  import NoOrderLost
  import Seqs

  function TradedAt(b: Book, bid: Order, f: Desk): (r: (bool, nat))
    requires TopIn(b, AskSide, bid).0.Some?
  {
    var top := TopIn(b, AskSide, bid).0.value;
    (Fill(b, top, bid, f).traded, TradeTerms(b, top, bid).0)
  }

  function AsksAfterFill(b: Book, bid: Order, f: Desk): Half
    requires TopIn(b, AskSide, bid).0.Some?
  {
    var (traded, price) := TradedAt(b, bid, f);
    NoOrderLost.AfterFill(AskSide, b.ask.(live := TopIn(b, AskSide, bid).2), traded, price)
  }

  function BidsAfterFill(b: Book, bid: Order, f: Desk): Half
    requires TopIn(b, AskSide, bid).0.Some?
  {
    var (traded, price) := TradedAt(b, bid, f);
    NoOrderLost.AfterFill(BidSide, b.bid, traded, price)
  }

  /** The bid side and the bid held after a turn: a finished bid gives way to the next best. */
  function NextHeld(h: Half, bid: Order, done: bool): (Half, Option<Order>) {
    if !done then (h, Some(bid))
    else if h.live == [] then (h, None)
    else (h.(live := Heap.Pop(LiveType(BidSide), h.live)), Some(h.live[0]))
  }

  /** What one turn does to the two halves. */
  lemma ClearHalves(b: Book, bid: Order, f: Desk)
    requires TopIn(b, AskSide, bid).0.Some?
    ensures var r, own := ClearRound(b, bid, f), TopIn(b, AskSide, bid).1;
            var asks := Heap.PushAll(LiveType(AskSide), AsksAfterFill(b, bid, f).live, own);
            && asks != []
            && r.b.ask == Half(if r.askDone then Heap.Pop(LiveType(AskSide), asks) else asks,
                               AsksAfterFill(b, bid, f).stops)
            && r.popped == (if r.askDone then [asks[0]] else [])
            && (r.b.bid, r.next) == NextHeld(BidsAfterFill(b, bid, f), bid, r.bidDone)
  {
    hide Woken, SkipOwn, AddStops, Less, Unfulfilled, TradePrice, TradeQty;
  }

  lemma TopInHalf(b: Book, s: Side, o: Order)
    requires Valid(b)
    ensures var (_, own, rest) := TopIn(b, s, o);
            && ValidHalf(s, b.Of(s).(live := rest)) && AllAwake(s, own)
            && Population(b.Of(s).(live := rest)) + multiset(own) == Population(b.Of(s))
  {
    assert ValidHalf(s, b.Of(s));
    SkipOwnFacts(LiveType(s), b.Live(s), o.userId);
    var (_, own, rest) := TopIn(b, s, o);
    Seqs.SameMembers(b.Live(s), own, rest);
  }

  /** The held bid, counted beside the bid queues. */
  function HeldBid(o: Option<Order>): multiset<Order> {
    if o.Some? then multiset{o.value} else multiset{}
  }

  lemma PopAfterPutBack(h: Half, own: seq<Order>, done: bool)
    requires ValidHalf(AskSide, h) && AllAwake(AskSide, own)
    requires Heap.PushAll(LiveType(AskSide), h.live, own) != []
    ensures var asks := Heap.PushAll(LiveType(AskSide), h.live, own);
            var r := Half(if done then Heap.Pop(LiveType(AskSide), asks) else asks, h.stops);
            && ValidHalf(AskSide, r)
            && Population(r) + multiset(if done then [asks[0]] else []) == Population(h) + multiset(own)
  {
    var asks := Heap.PushAll(LiveType(AskSide), h.live, own);
    PushAllKeepsSide(AskSide, h.live, own);
    Heap.PushAllRefines(LiveType(AskSide), h.live, own);
    assert Population(Half(asks, h.stops)) == Population(h) + multiset(own);
    NoOrderLost.PopRound(AskSide, Half(asks, h.stops), done, []);
  }

  lemma ClearAskSide(b: Book, bid: Order, f: Desk)
    requires Valid(b) && TopIn(b, AskSide, bid).0.Some?
    ensures var r := ClearRound(b, bid, f);
            ValidHalf(AskSide, r.b.ask) && Population(r.b.ask) + multiset(r.popped) == Population(b.ask)
  {
    var (_, own, rest) := TopIn(b, AskSide, bid);
    var (traded, price) := TradedAt(b, bid, f);
    ClearHalves(b, bid, f);
    TopInHalf(b, AskSide, bid);
    NoOrderLost.AfterFillKeeps(AskSide, b.ask.(live := rest), traded, price);
    hide ClearRound, TopIn;
    PopAfterPutBack(AsksAfterFill(b, bid, f), own, ClearRound(b, bid, f).askDone);
  }

  lemma NextHeldConserves(h: Half, bid: Order, done: bool)
    requires ValidHalf(BidSide, h) && bid.id.side == BidSide && bid.oType != StopLoss
    ensures var (r, next) := NextHeld(h, bid, done);
            && ValidHalf(BidSide, r)
            && (next.Some? ==> next.value.id.side == BidSide && next.value.oType != StopLoss)
            && Population(r) + HeldBid(next) + (if done then multiset{bid} else multiset{})
               == Population(h) + multiset{bid}
  {
    if done && h.live != [] {
      Heap.PopRefines(LiveType(BidSide), h.live);
      Seqs.SameMembers(h.live, Heap.Pop(LiveType(BidSide), h.live), [h.live[0]]);
    }
  }

  lemma ClearBidSide(b: Book, bid: Order, f: Desk)
    requires Valid(b) && TopIn(b, AskSide, bid).0.Some? && bid.id.side == BidSide && bid.oType != StopLoss
    ensures var r := ClearRound(b, bid, f);
            && ValidHalf(BidSide, r.b.bid)
            && (r.next.Some? ==> r.next.value.id.side == BidSide && r.next.value.oType != StopLoss)
            && Population(r.b.bid) + HeldBid(r.next) + (if r.bidDone then multiset{bid} else multiset{})
               == Population(b.bid) + multiset{bid}
  {
    var (traded, price) := TradedAt(b, bid, f);
    ClearHalves(b, bid, f);
    assert ValidHalf(BidSide, b.Of(BidSide));
    NoOrderLost.AfterFillKeeps(BidSide, b.bid, traded, price);
    hide ClearRound, TopIn, NextHeld, Population, ValidHalf;
    NextHeldConserves(BidsAfterFill(b, bid, f), bid, ClearRound(b, bid, f).bidDone);
  }

  lemma ClearRest(b: Book, bid: Order, f: Desk)
    requires Valid(b) && bid.id.side == BidSide && bid.oType != StopLoss && TopIn(b, AskSide, bid).0.None?
    ensures var r := ClearLoop(b, bid, f).b;
            Population(r.ask) == Population(b.ask) && Population(r.bid) == Population(b.bid) + multiset{bid}
  {
    var (_, own, rest) := TopIn(b, AskSide, bid);
    TopInHalf(b, AskSide, bid);
    assert ValidHalf(BidSide, b.Of(BidSide));
    Heap.PushAllRefines(LiveType(AskSide), rest, own);
    Heap.PushRefines(LiveType(BidSide), b.bid.live, bid);
  }

  lemma ClearKeepsValid(b: Book, bid: Order, f: Desk)
    requires Valid(b) && TopIn(b, AskSide, bid).0.Some? && bid.id.side == BidSide && bid.oType != StopLoss
    ensures Valid(ClearRound(b, bid, f).b)
  {
    hide ClearRound, TopIn, Population, ValidHalf;
    ClearAskSide(b, bid, f);
    ClearBidSide(b, bid, f);
    forall s: Side ensures ValidHalf(s, ClearRound(b, bid, f).b.Of(s)) {
      assert s == AskSide || s == BidSide;
    }
  }

  predicate GoesOn(r: ClearTurn) {
    (r.askDone || r.bidDone) && r.next.Some?
  }

  /** The loop, one turn at a time. */
  lemma ClearStep(b: Book, bid: Order, f: Desk) returns (c: Cleared)
    requires TopIn(b, AskSide, bid).0.Some?
    ensures var r, out := ClearRound(b, bid, f), ClearLoop(b, bid, f);
            && c == (if GoesOn(r) then ClearLoop(r.b, r.next.value, f)
                     else Cleared(r.b, [], [], [], if r.askDone || r.bidDone then [] else [bid]))
            && out.b == c.b && out.dropped == c.dropped && out.popped == r.popped + c.popped
            && out.finished == (if r.askDone then [r.top] else []) + c.finished
            && out.finishedBids == (if r.bidDone then [bid] else []) + c.finishedBids
  {
    var r := ClearRound(b, bid, f);
    c := if GoesOn(r) then ClearLoop(r.b, r.next.value, f)
         else Cleared(r.b, [], [], [], if r.askDone || r.bidDone then [] else [bid]);
  }

  /** After clearing, the ask side lacks exactly what was popped. */
  lemma {:induction false} ClearConservesAsks(b: Book, bid: Order, f: Desk)
    requires Valid(b) && bid.id.side == BidSide && bid.oType != StopLoss
    ensures var r := ClearLoop(b, bid, f);
            Population(r.b.ask) + multiset(r.popped) == Population(b.ask) && |r.popped| == |r.finished|
    decreases |b.ask.live| + |b.ask.stops| + |b.bid.live| + |b.bid.stops|
  {
    hide TopIn, Population, Valid, ValidHalf, ClearRound;
    if TopIn(b, AskSide, bid).0.None? {
      ClearRest(b, bid, f);
    } else {
      var r := ClearRound(b, bid, f);
      var c := ClearStep(b, bid, f);
      ClearAskSide(b, bid, f);
      ClearBidSide(b, bid, f);
      ClearKeepsValid(b, bid, f);
      hide ClearLoop;
      if GoesOn(r) {
        ClearConservesAsks(r.b, r.next.value, f);
      }
      Seqs.ChainRemovals(Population(b.ask), Population(r.b.ask), Population(c.b.ask), r.popped, c.popped);
    }
  }

  /** The bid side, counting the bid held at first, lacks exactly the finished bids and, after a
      failed fill, the held bid. */
  lemma {:induction false} ClearConservesBids(b: Book, bid: Order, f: Desk)
    requires Valid(b) && bid.id.side == BidSide && bid.oType != StopLoss
    ensures var r := ClearLoop(b, bid, f);
            (Population(r.b.bid) + multiset(r.dropped)) + multiset(r.finishedBids) == Population(b.bid) + multiset{bid}
    decreases |b.ask.live| + |b.ask.stops| + |b.bid.live| + |b.bid.stops|
  {
    if TopIn(b, AskSide, bid).0.None? {
      ClearRest(b, bid, f);
    } else {
      var r := ClearRound(b, bid, f);
      var c := ClearStep(b, bid, f);
      ClearBidSide(b, bid, f);
      ClearKeepsValid(b, bid, f);
      hide ClearLoop, ClearRound, TopIn, Population, Valid, ValidHalf;
      if GoesOn(r) {
        ClearConservesBids(r.b, r.next.value, f);
      }
      Seqs.ChainRemovals(Population(b.bid) + multiset{bid}, Population(r.b.bid) + HeldBid(r.next),
                         Population(c.b.bid) + multiset(c.dropped), if r.bidDone then [bid] else [], c.finishedBids);
    }
  }

  // -------------------------------------------------------------------------
  // When is the popped ask the finished one?
  // -------------------------------------------------------------------------

  /** A woken stop-loss, or one of the bidder's own asks put back too early, ranks above the ask
      that was traded with. */
  ghost predicate ClearOvertaken(b: Book, bid: Order, f: Desk)
    requires TopIn(b, AskSide, bid).0.Some?
  {
    var (top, own, _) := TopIn(b, AskSide, bid);
    var (traded, price) := TradedAt(b, bid, f);
    || (traded && exists x :: x in b.ask.stops && ShouldTrigger(price, x)
                              && Less(LiveType(AskSide), top.value, Triggered(x)))
    || exists x :: x in own && Less(LiveType(AskSide), top.value, x)
  }

  lemma PutBackOvertakesIff(h: Half, own: seq<Order>)
    requires ValidHalf(AskSide, h) && h.live != []
    ensures Heap.PushAll(LiveType(AskSide), h.live, own)[0] == h.live[0]
            <==> forall x :: x in own ==> !Less(LiveType(AskSide), h.live[0], x)
  {
    Heap.HeadSurvivesIff(LiveType(AskSide), h.live, own);
  }

  /** If something woken already ranks above top, putting orders back cannot bring top to the head. */
  lemma HeadStaysLost(h: Half, own: seq<Order>, top: Order)
    requires ValidHalf(AskSide, h) && h.live != [] && Less(LiveType(AskSide), top, h.live[0])
    ensures Heap.PushAll(LiveType(AskSide), h.live, own)[0] != top
  {
    var asks := Heap.PushAll(LiveType(AskSide), h.live, own);
    Heap.PushAllRefines(LiveType(AskSide), h.live, own);
    Seqs.SameMembers(asks, h.live, own);
    Heap.HeadMaximal(LiveType(AskSide), asks);
  }

  ghost predicate NobodyWokenAbove(h: Half, price: nat)
    requires h.live != []
  {
    forall x :: x in h.stops && ShouldTrigger(price, x) ==> !Less(LiveType(AskSide), h.live[0], Triggered(x))
  }

  /** The two ways to be overtaken, on the queue itself. */
  lemma OvertakenIff(h: Half, own: seq<Order>, traded: bool, price: nat)
    requires ValidHalf(AskSide, h) && h.live != [] && AllAwake(AskSide, own)
    ensures var after := NoOrderLost.AfterFill(AskSide, h, traded, price).live;
            && after != []
            && (Heap.PushAll(LiveType(AskSide), after, own)[0] == h.live[0] <==>
                && (traded ==> NobodyWokenAbove(h, price))
                && forall x :: x in own ==> !Less(LiveType(AskSide), h.live[0], x))
  {
    var r := NoOrderLost.AfterFill(AskSide, h, traded, price);
    NoOrderLost.AfterFillKeeps(AskSide, h, traded, price);
    if traded {
      NoOrderLost.WakeOvertakesIff(AskSide, h, price);
      WokenHeadOutranks(h, price);
    }
    hide ValidHalf, TriggerHalf, Less;
    if r.live[0] == h.live[0] {
      PutBackOvertakesIff(r, own);
    } else {
      HeadStaysLost(r, own, h.live[0]);
    }
  }

  /** The ask popped is the one that finished if and only if neither a woken stop-loss nor one of
      the bidder's own asks ranks above it. */
  lemma ClearPopsFinishedIff(b: Book, bid: Order, f: Desk)
    requires Valid(b) && TopIn(b, AskSide, bid).0.Some? && ClearRound(b, bid, f).askDone
    ensures var r := ClearRound(b, bid, f);
            r.popped == [r.top] <==> !ClearOvertaken(b, bid, f)
  {
    var (top, own, rest) := TopIn(b, AskSide, bid);
    var (traded, price) := TradedAt(b, bid, f);
    ClearHalves(b, bid, f);
    TopInHalf(b, AskSide, bid);
    OvertakenIff(b.ask.(live := rest), own, traded, price);
    assert ClearRound(b, bid, f).top == top.value == rest[0];
    hide ClearRound, TopIn, ValidHalf, Less;
  }

  lemma WokenHeadOutranks(h: Half, price: nat)
    requires ValidHalf(AskSide, h) && h.live != []
    ensures var r := TriggerHalf(AskSide, h, price);
            r.live[0] == h.live[0] || Less(LiveType(AskSide), h.live[0], r.live[0])
  {
    var r := TriggerHalf(AskSide, h, price);
    NoOrderLost.WakeOvertakesIff(AskSide, h, price);
    TriggerKeepsValid(AskSide, h, price);
    TriggerExact(AskSide, h, price);
    Heap.HeadMaximal(LiveType(AskSide), r.live);
    if r.live[0] != h.live[0] {
      var x :| x in h.stops && ShouldTrigger(price, x) && Less(LiveType(AskSide), h.live[0], Triggered(x));
      LessIsStrictWeakOrder(LiveType(AskSide), r.live[0], Triggered(x), h.live[0]);
      LessIsStrictWeakOrder(LiveType(AskSide), h.live[0], r.live[0], Triggered(x));
    }
  }
}
