/** Start-up matching and the depth: both orders of a turn are already counted. */
module ClearDepth {
  import opened Words
  import opened Orders
  import opened Wrappers
  import opened State
  import opened Depths
  import opened Matching
  import opened BookTheorems
  import opened NoOrderLost
  import opened DepthAgrees
  import opened DepthStops
  import opened DepthTurn
  import opened ClearExisting
  import Heap
  import Seqs
  import Sums

  /** The bid side with the bid that is being matched put back. */
  function WithHeld(h: Half, held: Option<Order>): Half {
    if held.Some? then h.(live := [held.value] + h.live) else h
  }

  /** Both sides' depths agree, the held bid counted. */
  ghost predicate ClearOk(b: Book, held: Option<Order>) {
    && Valid(b) && DepthHalf(b.depth.ask, b.ask, b.m.progress)
    && DepthHalf(b.depth.bid, WithHeld(b.bid, held), b.m.progress)
  }

  function ClearQty(b: Book, bid: Order): nat
    requires TopIn(b, AskSide, bid).0.Some?
  {
    var top := TopIn(b, AskSide, bid).0.value;
    Min(Unfulfilled(top, b.Progress(top)), Unfulfilled(bid, b.Progress(bid)))
  }

  function ClearFill(b: Book, bid: Order, f: Desk): FillResult
    requires TopIn(b, AskSide, bid).0.Some?
  {
    Matching.Fill(b, TopIn(b, AskSide, bid).0.value, bid, f)
  }

  ghost predicate HonestClear(b: Book, bid: Order, f: Desk) {
    TopIn(b, AskSide, bid).0.Some? ==>
      Honest(b.m, TopIn(b, AskSide, bid).0.value, bid, ClearQty(b, bid), ClearFill(b, bid, f))
  }

  /** The bid whose turn it is. */
  ghost predicate InTurn(b: Book, bid: Order) {
    bid.id.side == BidSide && bid.oType != StopLoss && ClearOk(b, Some(bid)) && TopIn(b, AskSide, bid).0.Some?
  }

  /** The bidder's best own ask ranks above the ask traded with and all stops woken. */
  ghost predicate OwnAbove(b: Book, bid: Order, f: Desk)
    requires TopIn(b, AskSide, bid).0.Some?
  {
    var (top, own, _) := TopIn(b, AskSide, bid);
    var (traded, price) := TradedAt(b, bid, f);
    && own != [] && Less(LiveType(AskSide), top.value, own[0])
    && (traded ==> forall x :: x in b.ask.stops && ShouldTrigger(price, x) ==> Less(LiveType(AskSide), Triggered(x), own[0]))
  }

  /** A stop woken by the trade ranks above the ask traded with. */
  ghost predicate WokenAbove(b: Book, bid: Order, f: Desk)
    requires TopIn(b, AskSide, bid).0.Some?
  {
    var top := TopIn(b, AskSide, bid).0.value;
    var (traded, price) := TradedAt(b, bid, f);
    traded && exists x :: x in b.ask.stops && ShouldTrigger(price, x) && Less(LiveType(AskSide), top, Triggered(x))
  }

  /** The ask popped for a finished one is closed: the bidder's best own ask, if it overtakes the ask traded
      with, is; otherwise no stop woken ranks above the ask traded with. */
  ghost predicate PopsClosed(b: Book, bid: Order, f: Desk)
    requires TopIn(b, AskSide, bid).0.Some?
  {
    if OwnAbove(b, bid, f) then Look(b.m.progress, TopIn(b, AskSide, bid).1[0]).isClosed else !WokenAbove(b, bid, f)
  }

  /** The turn trades and wakes no stop that was cancelled, or finds both orders closed; and what it pops for
      a finished ask is closed. */
  ghost predicate ClearKeeps(b: Book, bid: Order, f: Desk)
    requires TopIn(b, AskSide, bid).0.Some?
  {
    var fill, price := ClearFill(b, bid, f), TradedAt(b, bid, f).1;
    && (if fill.traded then
          NoneCancelled(b.ask, b.m.progress, price) && NoneCancelled(b.bid, b.m.progress, price)
        else fill.ask != Undone && fill.bid != Undone)
    && (fill.ask != Undone ==> PopsClosed(b, bid, f))
  }

  // -------------------------------------------------------------------------
  // The two orders of a turn
  // -------------------------------------------------------------------------

  /** The ask side without the ask traded with, the bidder's own asks included. */
  function OtherAsks(b: Book, bid: Order): seq<Order>
    requires TopIn(b, AskSide, bid).0.Some?
  {
    var (_, own, rest) := TopIn(b, AskSide, bid);
    rest[1..] + own
  }

  lemma AsksBefore(b: Book, bid: Order)
    requires Valid(b) && TopIn(b, AskSide, bid).0.Some?
    ensures var (top, own, rest) := TopIn(b, AskSide, bid);
            && [top.value] + OtherAsks(b, bid) == rest + own && rest != [] && top.value == rest[0]
            && multiset(b.ask.live) == multiset([top.value] + OtherAsks(b, bid))
            && top.value in b.ask.live && top.value.id.side == AskSide
  {
    hide SkipOwn, Heap.IsHeap, MatchesIn;
    var (top, own, rest) := TopIn(b, AskSide, bid);
    assert ValidHalf(AskSide, b.Of(AskSide));
    assert Heap.IsHeap(LiveType(AskSide), b.ask.live);
    SkipOwnFacts(LiveType(AskSide), b.ask.live, bid.userId);
    FirstAndRest(rest, own);
    FirstOfTwo(b.ask.live, own, rest);
  }

  lemma FirstOfTwo(q: seq<Order>, own: seq<Order>, rest: seq<Order>)
    requires multiset(q) == multiset(own) + multiset(rest) && rest != []
    ensures rest[0] in q
  {
    assert rest[0] in multiset(rest);
    assert rest[0] in multiset(q);
  }

  lemma HeldInPopulation(h: Half, bid: Order)
    ensures Population(WithHeld(h, Some(bid))) == Population(h) + multiset{bid}
    ensures bid in Population(WithHeld(h, Some(bid))) && bid in WithHeld(h, Some(bid)).live
  {
    assert multiset([bid] + h.live) == multiset{bid} + multiset(h.live);
  }

  lemma BothInTurn(b: Book, bid: Order)
    requires InTurn(b, bid)
    ensures var top, pm := TopIn(b, AskSide, bid).0.value, b.m.progress;
            && WellFilled(top, pm) && WellFilled(bid, pm) && top.id.side == AskSide && bid.id.side == BidSide
            && top in b.ask.live
  {
    AsksBefore(b, bid);
    HeldInPopulation(b.bid, bid);
    hide TopIn, Population;
    LiveInPopulation(b.ask, TopIn(b, AskSide, bid).0.value);
  }

  /** The ids of the two sides and the two orders. */
  lemma AskIds(b: Book, bid: Order, x: Order)
    requires InTurn(b, bid) && x in Population(b.ask)
    ensures var top := TopIn(b, AskSide, bid).0.value;
            x.id != bid.id && (x.id == top.id ==> x == top)
  {
    BothInTurn(b, bid);
    assert ValidHalf(AskSide, b.Of(AskSide));
    PopulationSide(AskSide, b.ask, x);
    LiveInPopulation(b.ask, TopIn(b, AskSide, bid).0.value);
    hide TopIn, Population;
  }

  lemma BidIds(b: Book, bid: Order, x: Order)
    requires InTurn(b, bid) && x in Population(b.bid)
    ensures x.id != TopIn(b, AskSide, bid).0.value.id && x.id != bid.id
  {
    BothInTurn(b, bid);
    assert ValidHalf(BidSide, b.Of(BidSide));
    PopulationSide(BidSide, b.bid, x);
    HeldInPopulation(b.bid, bid);
    hide TopIn;
    var all := Population(WithHeld(b.bid, Some(bid)));
    assert UniqueIds(all) && x in all && bid in all;
    assert x == bid ==> all[bid] >= 2;
  }

  lemma ClearAnswered(b: Book, bid: Order, f: Desk)
    requires InTurn(b, bid) && HonestClear(b, bid, f)
    ensures var fill := ClearFill(b, bid, f);
            Answered(TopIn(b, AskSide, bid).0.value, bid, b.m.progress, fill.m.progress, ClearQty(b, bid), fill.traded,
                     fill.ask, fill.bid)
  {
    BothInTurn(b, bid);
    hide TopIn, Matching.Fill, ClearQty, ClearOk;
  }

  lemma AskUntouched(b: Book, bid: Order, f: Desk, x: Order)
    requires InTurn(b, bid) && HonestClear(b, bid, f) && (x in OtherAsks(b, bid) || x in b.ask.stops)
    ensures Look(ClearFill(b, bid, f).m.progress, x) == Look(b.m.progress, x)
  {
    var top, q := TopIn(b, AskSide, bid).0.value, OtherAsks(b, bid);
    BothInTurn(b, bid);
    ClearAnswered(b, bid, f);
    AsksBefore(b, bid);
    hide TopIn, OtherAsks, ClearFill, HonestClear;
    if x in b.ask.stops {
      StopInPopulation(b.ask, x);
      AskIds(b, bid, Triggered(x));
      StopsApart(b.ask, top, x);
    } else {
      Seqs.SameMembers(b.ask.live, [top], q);
      LiveInPopulation(b.ask, x);
      AskIds(b, bid, x);
      OnceInLive(b.ask, top);
      assert multiset([top] + q) == multiset{top} + multiset(q);
      assert multiset(q)[top] == 0;
    }
  }

  lemma BidUntouched(b: Book, bid: Order, f: Desk, x: Order)
    requires InTurn(b, bid) && HonestClear(b, bid, f) && (x in b.bid.live || x in b.bid.stops)
    ensures Look(ClearFill(b, bid, f).m.progress, x) == Look(b.m.progress, x)
  {
    ClearAnswered(b, bid, f);
    hide TopIn, ClearFill, HonestClear;
    if x in b.bid.live {
      LiveInPopulation(b.bid, x);
      BidIds(b, bid, x);
    } else {
      StopInPopulation(b.bid, x);
      BidIds(b, bid, Triggered(x));
    }
  }

  // -------------------------------------------------------------------------
  // Both sides stay tracked
  // -------------------------------------------------------------------------

  lemma ClearWellFilled(b: Book, bid: Order, f: Desk, x: Order)
    requires InTurn(b, bid) && HonestClear(b, bid, f)
    requires x in Population(b.ask) || x in Population(WithHeld(b.bid, Some(bid)))
    ensures WellFilled(x, ClearFill(b, bid, f).m.progress)
  {
    var top, fill := TopIn(b, AskSide, bid).0.value, ClearFill(b, bid, f);
    BothInTurn(b, bid);
    ClearAnswered(b, bid, f);
    HeldInPopulation(b.bid, bid);
    hide TopIn, ClearFill, HonestClear, Population, Matching.Fill;
    if x in Population(b.ask) {
      AskIds(b, bid, x);
    } else if x in Population(b.bid) {
      BidIds(b, bid, x);
    }
    AnsweredWellFilled(top, bid, b.m.progress, fill.m.progress, fill.traded, fill.ask, fill.bid, x, x);
  }

  lemma AskTracked(b: Book, bid: Order, f: Desk)
    requires InTurn(b, bid) && HonestClear(b, bid, f)
    ensures var r := ClearRound(b, bid, f); Tracked(r.b.ask, r.b.m.progress) && r.b.m.progress == ClearFill(b, bid, f).m.progress
  {
    var r := ClearRound(b, bid, f);
    ClearAskSide(b, bid, f);
    ClearHalves(b, bid, f);
    assert r.b.m.progress == ClearFill(b, bid, f).m.progress by { ClearRoundModels(b, bid, f); }
    TopInHalf(b, AskSide, bid);
    var rest := b.ask.(live := TopIn(b, AskSide, bid).2);
    var (traded, price) := TradedAt(b, bid, f);
    assert r.b.ask.stops == AfterFill(AskSide, rest, traded, price).stops;
    hide ClearRound, TopIn, AfterFill, Population, ClearFill, TradedAt, AsksAfterFill;
    forall x | x in r.b.ask.stops ensures x in b.ask.stops && Look(r.b.m.progress, x) == Look(b.m.progress, x) {
      StopsOnlyLeave(AskSide, rest, traded, price, x);
      AskUntouched(b, bid, f, x);
    }
    forall x | x in Population(b.ask) ensures WellFilled(x, r.b.m.progress) { ClearWellFilled(b, bid, f, x); }
    hide InTurn, HonestClear, WellFilled, Look;
    assert Tracked(b.ask, b.m.progress) by { InTurnTracked(b, bid); }
    TrackedKept(b.ask, r.b.ask, b.m.progress, r.b.m.progress);
  }

  lemma InTurnTracked(b: Book, bid: Order)
    requires InTurn(b, bid)
    ensures DepthHalf(b.depth.ask, b.ask, b.m.progress) && Valid(b)
    ensures DepthHalf(b.depth.bid, WithHeld(b.bid, Some(bid)), b.m.progress)
    ensures ValidHalf(AskSide, b.ask) && ValidHalf(BidSide, b.bid) && bid.id.side == BidSide && bid.oType != StopLoss
    ensures TopIn(b, AskSide, bid).0.Some?
  {
    assert ValidHalf(AskSide, b.Of(AskSide)) && ValidHalf(BidSide, b.Of(BidSide));
  }

  lemma ClearRoundModels(b: Book, bid: Order, f: Desk)
    requires TopIn(b, AskSide, bid).0.Some?
    ensures var m', fill := ClearRound(b, bid, f).b.m, ClearFill(b, bid, f);
            && m' == fill.m.(orders := m'.orders, stored := m'.stored)
            && (!fill.traded || (b.ask.stops == [] && b.bid.stops == []) ==> m' == fill.m)
    ensures ClearRound(b, bid, f).askDone == (ClearFill(b, bid, f).ask != Undone)
    ensures ClearRound(b, bid, f).bidDone == (ClearFill(b, bid, f).bid != Undone)
  {
    hide AddStops, TriggerHalf, CloseLevel, SkipOwn;
  }

  lemma BidTracked(b: Book, bid: Order, f: Desk)
    requires InTurn(b, bid) && HonestClear(b, bid, f)
    ensures var r := ClearRound(b, bid, f); Tracked(WithHeld(r.b.bid, r.next), r.b.m.progress)
  {
    hide ClearRound, TopIn, Population, ClearFill, TradedAt, InTurn, HonestClear, WellFilled, Look, Tracked, Valid, ValidHalf;
    InTurnTracked(b, bid);
    var r, h := ClearRound(b, bid, f), WithHeld(b.bid, Some(bid));
    ClearBidSide(b, bid, f);
    ClearRoundModels(b, bid, f);
    HeldInPopulation(b.bid, bid);
    HeldPopulation(r.b.bid, r.next);
    forall x | x in r.b.bid.stops ensures x in h.stops && Look(r.b.m.progress, x) == Look(b.m.progress, x) {
      BidStopsLeave(b, bid, f, x);
      BidUntouched(b, bid, f, x);
    }
    forall x | x in Population(h) ensures WellFilled(x, r.b.m.progress) { ClearWellFilled(b, bid, f, x); }
    assert WithHeld(r.b.bid, r.next).stops == r.b.bid.stops;
    hide WithHeld;
    TrackedKept(h, WithHeld(r.b.bid, r.next), b.m.progress, r.b.m.progress);
  }

  lemma BidStopsLeave(b: Book, bid: Order, f: Desk, x: Order)
    requires InTurn(b, bid) && TopIn(b, AskSide, bid).0.Some? && x in ClearRound(b, bid, f).b.bid.stops
    ensures x in b.bid.stops
  {
    InTurnTracked(b, bid);
    hide ClearRound, TopIn, AfterFill, TradedAt, InTurn;
    ClearHalves(b, bid, f);
    var (traded, price) := TradedAt(b, bid, f);
    StopsOnlyLeave(BidSide, b.bid, traded, price, x);
  }

  lemma HeldPopulation(h: Half, held: Option<Order>)
    ensures Population(WithHeld(h, held)) == Population(h) + HeldBid(held)
  {
    if held.Some? {
      assert multiset([held.value] + h.live) == multiset{held.value} + multiset(h.live);
    }
  }

  // -------------------------------------------------------------------------
  // What a turn does to the queues and the levels
  // -------------------------------------------------------------------------

  /** The asks after a turn: the others, those woken and, unless it is popped, the one traded with. */
  lemma AsksAfter(b: Book, bid: Order, f: Desk)
    requires Valid(b) && TopIn(b, AskSide, bid).0.Some?
    ensures var r, w := ClearRound(b, bid, f), WokenOf(AskSide, b.ask, TradedAt(b, bid, f).1);
            var before, after := [TopIn(b, AskSide, bid).0.value] + OtherAsks(b, bid),
                                 multiset(r.b.ask.live) + multiset(r.popped);
            && (ClearFill(b, bid, f).traded ==> after == multiset(before) + multiset(TriggeredAll(w)))
            && (!ClearFill(b, bid, f).traded ==> after == multiset(before))
            && (!r.askDone ==> r.popped == [])
  {
    hide ClearRound, TopIn, OtherAsks, Heap.PushAll, Heap.Pop, Heap.IsHeap, AfterFill, TriggerHalf, Population, WokenOf, Valid,
         Matching.Fill, TradeTerms, BidsAfterFill, NextHeld, TriggeredAll, ValidHalf;
    var (top, own, rest) := TopIn(b, AskSide, bid);
    var (traded, price) := TradedAt(b, bid, f);
    var h := b.ask.(live := rest);
    var after := AfterFill(AskSide, h, traded, price);
    AsksBefore(b, bid);
    ClearHalves(b, bid, f);
    TopInHalf(b, AskSide, bid);
    AfterFillKeeps(AskSide, h, traded, price);
    AfterFillContents(AskSide, h, traded, price);
    PutBackAndPop(after, own, ClearRound(b, bid, f).askDone);
    assert multiset(rest + own) == multiset(rest) + multiset(own);
    SameWoken(AskSide, h, b.ask, price);
  }

  lemma SameWoken(s: Side, h: Half, h': Half, price: nat)
    requires h.stops == h'.stops
    ensures WokenOf(s, h, price) == WokenOf(s, h', price)
  {
  }

  lemma PutBackAndPop(h: Half, own: seq<Order>, done: bool)
    requires ValidHalf(AskSide, h)
    ensures var asks := Heap.PushAll(LiveType(AskSide), h.live, own);
            asks != [] ==>
              multiset(if done then Heap.Pop(LiveType(AskSide), asks) else asks) + multiset(if done then [asks[0]] else [])
              == multiset(h.live) + multiset(own)
  {
    Heap.PushAllRefines(LiveType(AskSide), h.live, own);
    var asks := Heap.PushAll(LiveType(AskSide), h.live, own);
    if asks != [] {
      Heap.PopRefines(LiveType(AskSide), asks);
    }
  }

  lemma BidsAfter(b: Book, bid: Order, f: Desk)
    requires Valid(b) && TopIn(b, AskSide, bid).0.Some?
    ensures var r, w := ClearRound(b, bid, f), WokenOf(BidSide, b.bid, TradedAt(b, bid, f).1);
            var after := multiset(WithHeld(r.b.bid, r.next).live) + multiset(if r.bidDone then [bid] else []);
            && (ClearFill(b, bid, f).traded ==> after == multiset([bid] + b.bid.live) + multiset(TriggeredAll(w)))
            && (!ClearFill(b, bid, f).traded ==> after == multiset([bid] + b.bid.live))
  {
    hide ClearRound, TopIn, AfterFill, TriggerHalf, Population, WokenOf, NextHeld, WithHeld, TradeTerms, ValidHalf, AsksAfterFill,
         TriggeredAll, Heap.PushAll, Heap.Pop, LiveType, Matching.Fill;
    var (traded, price) := TradedAt(b, bid, f);
    assert ValidHalf(BidSide, b.Of(BidSide));
    ClearHalves(b, bid, f);
    AfterFillKeeps(BidSide, b.bid, traded, price);
    AfterFillContents(BidSide, b.bid, traded, price);
    NextHeldContents(AfterFill(BidSide, b.bid, traded, price), bid, ClearRound(b, bid, f).bidDone);
    assert multiset([bid] + b.bid.live) == multiset{bid} + multiset(b.bid.live);
  }

  lemma AfterFillContents(s: Side, h: Half, traded: bool, price: nat)
    requires ValidHalf(s, h)
    ensures multiset(AfterFill(s, h, traded, price).live)
            == multiset(h.live) + multiset(if traded then TriggeredAll(WokenOf(s, h, price)) else [])
  {
    if traded {
      TriggerContents(s, h, price);
    }
  }

  lemma NextHeldContents(h: Half, bid: Order, done: bool)
    requires ValidHalf(BidSide, h)
    ensures var (r, next) := NextHeld(h, bid, done);
            multiset(WithHeld(r, next).live) + multiset(if done then [bid] else []) == multiset{bid} + multiset(h.live)
  {
    var (r, next) := NextHeld(h, bid, done);
    if h.live != [] {
      Heap.PopRefines(LiveType(BidSide), h.live);
    }
    if next.Some? {
      assert multiset([next.value] + r.live) == multiset{next.value} + multiset(r.live);
    }
  }

  function Bucketed(o: Order): nat {
    Bucket(IsMarket(o.oType), o.price)
  }

  /** A trade: both levels lose what was traded, then woken stops join. */
  lemma ClearTradeLevels(b: Book, bid: Order, f: Desk, k: nat)
    requires TopIn(b, AskSide, bid).0.Some? && ClearFill(b, bid, f).traded
    requires bid.id.side == BidSide && TopIn(b, AskSide, bid).0.value.id.side == AskSide
    ensures var r, top, price := ClearRound(b, bid, f), TopIn(b, AskSide, bid).0.value, TradedAt(b, bid, f).1;
            && Get(r.b.depth.ask.depth, k)
               == Get(CloseLevel(b.depth.ask, Bucketed(top), ClearQty(b, bid)).depth, k)
                  + (if k == 0 then Sums.Sum(WokenOf(AskSide, b.ask, price), WholeQuantity()) else 0)
            && Get(r.b.depth.bid.depth, k)
               == Get(CloseLevel(b.depth.bid, Bucketed(bid), ClearQty(b, bid)).depth, k)
                  + (if k == 0 then Sums.Sum(WokenOf(BidSide, b.bid, price), WholeQuantity()) else 0)
  {
    var (top, own, rest) := TopIn(b, AskSide, bid);
    var price, qty := TradedAt(b, bid, f).1, ClearQty(b, bid);
    var b0 := b.SetLive(AskSide, rest);
    var b1 := b0.(m := ClearFill(b, bid, f).m, depth := TradeAdded(b0.depth, price, qty));
    var b3 := CloseDepth(CloseDepth(b1, bid, qty), top.value, qty);
    assert ClearRound(b, bid, f).b.depth == TriggerStopLosses(b3, price, f).depth by {
      hide TriggerStopLosses, CloseLevel, SkipOwn;
    }
    TriggerLevels(b3, price, f, AskSide, k);
    TriggerLevels(b3, price, f, BidSide, k);
    assert b3.ask.stops == b.ask.stops && b3.bid.stops == b.bid.stops;
    hide TriggerStopLosses, ClearRound, SkipOwn, CloseLevel;
  }

  /** No trade: each level loses what its order still had, unless that order was reported as closed. */
  lemma ClearQuietLevels(b: Book, bid: Order, f: Desk)
    requires TopIn(b, AskSide, bid).0.Some? && !ClearFill(b, bid, f).traded
    requires bid.id.side == BidSide && TopIn(b, AskSide, bid).0.value.id.side == AskSide
    ensures var r, top, fill := ClearRound(b, bid, f), TopIn(b, AskSide, bid).0.value, ClearFill(b, bid, f);
            && r.b.depth.ask == (if fill.ask == AlreadyClosed then b.depth.ask
                                 else CloseLevel(b.depth.ask, Bucketed(top), Unfulfilled(top, Look(fill.m.progress, top))))
            && r.b.depth.bid == (if fill.bid == AlreadyClosed then b.depth.bid
                                 else CloseLevel(b.depth.bid, Bucketed(bid), Unfulfilled(bid, Look(fill.m.progress, bid))))
  {
    hide CloseLevel, SkipOwn, Unfulfilled, Matches, Less;
  }

  // -------------------------------------------------------------------------
  // Exactly when a turn keeps the depth
  // -------------------------------------------------------------------------

  lemma PoppedAskFilled(b: Book, bid: Order, f: Desk, x: Order)
    requires InTurn(b, bid) && HonestClear(b, bid, f) && x in ClearRound(b, bid, f).popped
    ensures WellFilled(x, ClearFill(b, bid, f).m.progress)
  {
    InTurnTracked(b, bid);
    ClearAskSide(b, bid, f);
    var r := ClearRound(b, bid, f);
    hide ClearRound, TopIn, Population, InTurn, HonestClear;
    assert x in multiset(r.popped);
    assert x in Population(b.ask);
    ClearWellFilled(b, bid, f, x);
  }

  lemma ClearTradeAsks(b: Book, bid: Order, f: Desk)
    requires InTurn(b, bid) && HonestClear(b, bid, f) && ClearFill(b, bid, f).traded
    ensures var r := ClearRound(b, bid, f);
            Agrees(r.b.depth.ask, r.b.ask.live, r.b.m.progress)
            <==> NoneCancelled(b.ask, b.m.progress, TradedAt(b, bid, f).1) && AllClosed(r.popped, r.b.m.progress)
  {
    hide ClearRound, TopIn, InTurn, HonestClear, ClearFill, TradedAt, ClearQty, Population, CloseLevel, WokenOf, TriggeredAll,
         OtherAsks, Bucketed;
    InTurnTracked(b, bid);
    var r, top, q := ClearRound(b, bid, f), TopIn(b, AskSide, bid).0.value, OtherAsks(b, bid);
    var price, pm, pm' := TradedAt(b, bid, f).1, b.m.progress, ClearFill(b, bid, f).m.progress;
    BothInTurn(b, bid);
    ClearAnswered(b, bid, f);
    ClearRoundModels(b, bid, f);
    AsksBefore(b, bid);
    AsksAfter(b, bid, f);
    forall k: nat { ClearTradeLevels(b, bid, f, k); }
    forall x | x in q || x in b.ask.stops ensures Look(pm', x) == Look(pm, x) { AskUntouched(b, bid, f, x); }
    forall x | x in r.popped ensures WellFilled(x, pm') { PoppedAskFilled(b, bid, f, x); }
    WokenDormant(AskSide, b.ask, price);
    TopBucket(top);
    ClearQtyFits(b, bid);
    AgreesPermutes(b.depth.ask, b.ask.live, [top] + q, pm);
    hide Agrees, ValidHalf, Valid;
    FilledSideWoken(AskSide, b.depth.ask, r.b.depth.ask, b.ask, top, q, ClearQty(b, bid), r.b.ask.live,
                    WokenOf(AskSide, b.ask, price), r.popped, price, pm, pm');
  }

  lemma TopBucket(o: Order)
    ensures Bucketed(o) == Bucket(IsMarket(o.oType), o.price)
  {
  }

  lemma ClearQtyFits(b: Book, bid: Order)
    requires TopIn(b, AskSide, bid).0.Some?
    ensures var top := TopIn(b, AskSide, bid).0.value;
            && ClearQty(b, bid) <= Unfulfilled(top, Look(b.m.progress, top))
            && ClearQty(b, bid) <= Unfulfilled(bid, Look(b.m.progress, bid))
  {
    hide TopIn;
  }

  lemma WokenDormant(s: Side, h: Half, price: nat)
    requires ValidHalf(s, h)
    ensures AllDormant(s, WokenOf(s, h, price))
  {
    WokenFacts(s, h.stops, price);
  }

  /** The held bid across a trade. */
  lemma HeldBidFilled(b: Book, bid: Order, f: Desk)
    requires InTurn(b, bid) && HonestClear(b, bid, f) && ClearFill(b, bid, f).traded
    ensures var pm, pm', r := b.m.progress, ClearFill(b, bid, f).m.progress, ClearRound(b, bid, f);
            && WellFilled(bid, pm) && !Look(pm, bid).isClosed && ClearQty(b, bid) <= Unfulfilled(bid, Look(pm, bid))
            && Look(pm', bid) == FilledBy(bid, Look(pm, bid), ClearQty(b, bid))
            && (r.bidDone ==> Look(pm', bid).isClosed) && WellFilled(bid, pm') && r.b.m.progress == pm'
  {
    InTurnTracked(b, bid);
    BothInTurn(b, bid);
    hide ClearRound, TopIn, InTurn, HonestClear, ClearFill, ClearQty, Population;
    ClearAnswered(b, bid, f);
    ClearRoundModels(b, bid, f);
    HeldInPopulation(b.bid, bid);
    ClearWellFilled(b, bid, f, bid);
    ClearQtyFits(b, bid);
  }

  lemma ClearTradeBids(b: Book, bid: Order, f: Desk)
    requires InTurn(b, bid) && HonestClear(b, bid, f) && ClearFill(b, bid, f).traded
    ensures var r := ClearRound(b, bid, f);
            Agrees(r.b.depth.bid, WithHeld(r.b.bid, r.next).live, r.b.m.progress)
            <==> NoneCancelled(b.bid, b.m.progress, TradedAt(b, bid, f).1)
  {
    hide ClearRound, TopIn, InTurn, HonestClear, ClearFill, TradedAt, ClearQty, CloseLevel, WokenOf, TriggeredAll, Bucketed,
         Population, ValidHalf, Valid, Agrees;
    InTurnTracked(b, bid);
    BothInTurn(b, bid);
    var h := WithHeld(b.bid, Some(bid));
    assert h.live == [bid] + b.bid.live && h.stops == b.bid.stops;
    hide WithHeld;
    var r, price := ClearRound(b, bid, f), TradedAt(b, bid, f).1;
    var pm, pm', out := b.m.progress, ClearFill(b, bid, f).m.progress, if r.bidDone then [bid] else [];
    HeldBidFilled(b, bid, f);
    BidsAfter(b, bid, f);
    forall k: nat { ClearTradeLevels(b, bid, f, k); }
    forall x | x in b.bid.live || x in b.bid.stops ensures Look(pm', x) == Look(pm, x) { BidUntouched(b, bid, f, x); }
    WokenDormant(BidSide, b.bid, price);
    TopBucket(bid);
    FilledSideWoken(BidSide, b.depth.bid, r.b.depth.bid, b.bid, bid, b.bid.live, ClearQty(b, bid),
                    WithHeld(r.b.bid, r.next).live, WokenOf(BidSide, b.bid, price), out, price, pm, pm');
  }

  /** Without a trade, an order that is reported neither closed nor done is forgotten. */
  lemma ClearQuietBreaks(b: Book, bid: Order, f: Desk)
    requires InTurn(b, bid) && HonestClear(b, bid, f) && !ClearFill(b, bid, f).traded
    requires ClearFill(b, bid, f).ask == Undone || ClearFill(b, bid, f).bid == Undone
    ensures var r := ClearRound(b, bid, f);
            !Agrees(r.b.depth.ask, r.b.ask.live, r.b.m.progress)
            || !Agrees(r.b.depth.bid, WithHeld(r.b.bid, r.next).live, r.b.m.progress)
  {
    InTurnTracked(b, bid);
    hide ClearRound, TopIn, InTurn, HonestClear, ClearFill, TradedAt, ClearQty, Population, CloseLevel, WokenOf, TriggeredAll,
         OtherAsks, Bucketed, Unfulfilled;
    var r, top, q := ClearRound(b, bid, f), TopIn(b, AskSide, bid).0.value, OtherAsks(b, bid);
    var pm, pm' := b.m.progress, ClearFill(b, bid, f).m.progress;
    BothInTurn(b, bid);
    ClearAnswered(b, bid, f);
    ClearRoundModels(b, bid, f);
    AsksBefore(b, bid);
    ClearQuietLevels(b, bid, f);
    TopBucket(top);
    TopBucket(bid);
    if ClearFill(b, bid, f).ask == Undone {
      AsksAfter(b, bid, f);
      assert multiset(r.b.ask.live) == multiset([top] + q);
      forall x | x in q ensures Look(pm', x) == Look(pm, x) { AskUntouched(b, bid, f, x); }
      hide Agrees, ValidHalf, Valid;
      CounterStays(b.depth.ask, top, q, pm, pm', b.ask.live, r.b.ask.live);
    } else {
      BidsAfter(b, bid, f);
      assert multiset(WithHeld(r.b.bid, r.next).live) == multiset([bid] + b.bid.live);
      forall x | x in b.bid.live ensures Look(pm', x) == Look(pm, x) { BidUntouched(b, bid, f, x); }
      hide Agrees, ValidHalf, Valid;
      CounterStays(b.depth.bid, bid, b.bid.live, pm, pm', [bid] + b.bid.live, WithHeld(r.b.bid, r.next).live);
    }
  }

  lemma BothClosed(b: Book, bid: Order, f: Desk)
    requires InTurn(b, bid) && HonestClear(b, bid, f) && !ClearFill(b, bid, f).traded
    requires ClearFill(b, bid, f).ask != Undone && ClearFill(b, bid, f).bid != Undone
    ensures ClearFill(b, bid, f).ask == AlreadyClosed == ClearFill(b, bid, f).bid
    ensures var top := TopIn(b, AskSide, bid).0.value;
            Look(b.m.progress, top).isClosed && Look(b.m.progress, bid).isClosed
    ensures forall x: Order :: Look(ClearFill(b, bid, f).m.progress, x) == Look(b.m.progress, x)
  {
    hide TopIn, ClearFill, ClearOk, ClearQty;
    var top, m, m' := TopIn(b, AskSide, bid).0.value, b.m, ClearFill(b, bid, f).m;
    forall x: Order ensures Look(m'.progress, x) == Look(m.progress, x) {
      assert x.id == top.id ==> Look(m'.progress, x) == Look(m'.progress, top) && Look(m.progress, x) == Look(m.progress, top);
      assert x.id == bid.id ==> Look(m'.progress, x) == Look(m'.progress, bid) && Look(m.progress, x) == Look(m.progress, bid);
    }
  }

  /** Two closed orders just leave. */
  lemma ClearClosedAsks(b: Book, bid: Order, f: Desk)
    requires InTurn(b, bid) && HonestClear(b, bid, f) && !ClearFill(b, bid, f).traded
    requires ClearFill(b, bid, f).ask != Undone && ClearFill(b, bid, f).bid != Undone
    ensures var r := ClearRound(b, bid, f);
            Agrees(r.b.depth.ask, r.b.ask.live, r.b.m.progress) <==> AllClosed(r.popped, r.b.m.progress)
  {
    InTurnTracked(b, bid);
    hide ClearRound, TopIn, InTurn, HonestClear, ClearFill, TradedAt, ClearQty, Population, WokenOf, OtherAsks, Tracked,
         WellFilled, CloseLevel, Unfulfilled, Bucketed, Answered;
    var r, pm, pm' := ClearRound(b, bid, f), b.m.progress, ClearFill(b, bid, f).m.progress;
    BothInTurn(b, bid);
    BothClosed(b, bid, f);
    ClearRoundModels(b, bid, f);
    AsksBefore(b, bid);
    AsksAfter(b, bid, f);
    ClearQuietLevels(b, bid, f);
    forall x | x in r.popped ensures WellFilled(x, pm') { PoppedAskFilled(b, bid, f, x); }
    AgreesFrame(b.depth.ask, b.ask.live, pm, pm');
    hide Agrees, ValidHalf, Valid, AllClosed;
    LeaveIff(AskSide, b.depth.ask, b.ask.live, r.b.ask.live, r.popped, pm');
  }

  lemma ClosedBidLeaves(l: Level, bid: Order, live: seq<Order>, live2: seq<Order>, pm: ProgressMap, pm': ProgressMap)
    requires Agrees(l, [bid] + live, pm) && forall x: Order :: Look(pm', x) == Look(pm, x)
    requires Look(pm, bid).isClosed && WellFilled(bid, pm)
    requires multiset(live2) + multiset([bid]) == multiset([bid] + live)
    ensures Agrees(l, live2, pm')
  {
    AgreesFrame(l, [bid] + live, pm, pm');
    LeaveIff(BidSide, l, [bid] + live, live2, [bid], pm');
    OneClosed(bid, pm');
  }

  lemma ClearClosedBids(b: Book, bid: Order, f: Desk)
    requires InTurn(b, bid) && HonestClear(b, bid, f) && !ClearFill(b, bid, f).traded
    requires ClearFill(b, bid, f).ask != Undone && ClearFill(b, bid, f).bid != Undone
    ensures var r := ClearRound(b, bid, f);
            Agrees(r.b.depth.bid, WithHeld(r.b.bid, r.next).live, r.b.m.progress)
  {
    InTurnTracked(b, bid);
    BothInTurn(b, bid);
    hide ClearRound, TopIn, InTurn, HonestClear, ClearFill, Agrees, Tracked, WellFilled, CloseLevel, Unfulfilled, Bucketed, Valid,
         ValidHalf, Look, OtherAsks;
    var r := ClearRound(b, bid, f);
    BothClosed(b, bid, f);
    ClearRoundModels(b, bid, f);
    BidsAfter(b, bid, f);
    ClearQuietLevels(b, bid, f);
    ClosedBidLeaves(b.depth.bid, bid, b.bid.live, WithHeld(r.b.bid, r.next).live, b.m.progress, ClearFill(b, bid, f).m.progress);
  }

  lemma OneClosed(x: Order, pm: ProgressMap)
    requires Look(pm, x).isClosed
    ensures AllClosed([x], pm)
  {
  }

  /** Orders that leave a queue may do so unnoticed if and only if they are closed. */
  lemma LeaveIff(s: Side, l: Level, live: seq<Order>, live2: seq<Order>, out: seq<Order>, pm: ProgressMap)
    requires Agrees(l, live, pm) && multiset(live2) + multiset(out) == multiset(live)
    requires forall x :: x in out ==> WellFilled(x, pm)
    ensures Agrees(l, live2, pm) <==> AllClosed(out, pm)
  {
    var none: seq<Order> := [];
    assert Sums.Sum(none, WholeQuantity()) == 0 && TriggeredAll(none) == [];
    assert WokenInto(s, l, live, l, live2, none, out);
    assert AllOpen(none, pm) && Unfilled(none, pm);
    hide WokenInto, Agrees;
    WokenAgreesIff(s, l, live, l, live2, none, out, pm);
  }

  // -------------------------------------------------------------------------
  // What a turn pops
  // -------------------------------------------------------------------------

  /** What the asks' head is once the bidder's own asks are back: the best of these if it ranks above the
      head h had. */
  lemma HeadPutBack(h: seq<Order>, q: seq<Order>, userId: nat)
    requires Heap.IsHeap(LiveType(AskSide), h) && h != [] && Heap.IsHeap(LiveType(AskSide), q)
    ensures var own := SkipOwn(LiveType(AskSide), q, userId).0;
            Heap.PushAll(LiveType(AskSide), h, own)[0]
            == if own != [] && Less(LiveType(AskSide), h[0], own[0]) then own[0] else h[0]
  {
    var (own, rest) := SkipOwn(LiveType(AskSide), q, userId);
    if own != [] {
      SkipOwnFacts(LiveType(AskSide), q, userId);
      Heap.HeadMaximal(LiveType(AskSide), q);
      hide SkipOwn, Heap.IsHeap, Less, Heap.PushAll;
      forall x | x in own ensures x in q && !Less(LiveType(AskSide), own[0], x) {
        assert x in multiset(own);
        assert x in multiset(q);
        assert own[0] == q[0] by { OwnStarts(LiveType(AskSide), q, userId); }
      }
      if Less(LiveType(AskSide), h[0], own[0]) {
        Heap.PushAllTakesHead(LiveType(AskSide), h, own);
      } else {
        forall x | x in own ensures !Less(LiveType(AskSide), h[0], x) {
          LessIsStrictWeakOrder(LiveType(AskSide), h[0], own[0], x);
        }
        Heap.PushAllKeepsHead(LiveType(AskSide), h, own);
      }
    }
  }

  lemma OwnStarts(t: PQType, q: seq<Order>, userId: nat)
    requires SkipOwn(t, q, userId).0 != []
    ensures q != [] && SkipOwn(t, q, userId).0[0] == q[0]
  {
  }

  /** The head once the stops are woken: the order traded with, or a woken stop that ranks above it; own asks
      rank above it exactly if they rank above all those. */
  lemma WokenHead(h: Half, traded: bool, price: nat, y: Order)
    requires ValidHalf(AskSide, h) && h.live != [] && forall x :: x in h.live ==> !Less(LiveType(AskSide), h.live[0], x)
    ensures var r := AfterFill(AskSide, h, traded, price).live;
            && r != [] && Heap.IsHeap(LiveType(AskSide), r)
            && (r[0] == h.live[0] || (traded && Less(LiveType(AskSide), h.live[0], r[0])
                                      && exists x :: x in h.stops && ShouldTrigger(price, x) && r[0] == Triggered(x)))
            && (r[0] == h.live[0] <==> (traded ==> NobodyWokenAbove(h, price)))
            && (Less(LiveType(AskSide), r[0], y)
                <==> Less(LiveType(AskSide), h.live[0], y)
                     && (traded ==> forall x :: x in h.stops && ShouldTrigger(price, x) ==> Less(LiveType(AskSide), Triggered(x), y)))
  {
    AfterFillKeeps(AskSide, h, traded, price);
    var r := AfterFill(AskSide, h, traded, price);
    if traded {
      TriggerExact(AskSide, h, price);
      WakeOvertakesIff(AskSide, h, price);
      Heap.HeadMaximal(LiveType(AskSide), r.live);
      WokenHeadFrom(h, price);
      WokenHeadOutranks(h, price);
      hide TriggerHalf, Heap.IsHeap, Less;
      RanksAbove(h, r, price, y);
    }
  }

  lemma RanksAbove(h: Half, r: Half, price: nat, y: Order)
    requires h.live != [] && r.live != []
    requires forall x :: x in h.stops && ShouldTrigger(price, x) ==> Triggered(x) in r.live
    requires forall x :: x in r.live ==> !Less(LiveType(AskSide), r.live[0], x)
    requires r.live[0] == h.live[0] || exists x :: x in h.stops && ShouldTrigger(price, x) && r.live[0] == Triggered(x)
    requires r.live[0] == h.live[0] || Less(LiveType(AskSide), h.live[0], r.live[0])
    ensures Less(LiveType(AskSide), r.live[0], y)
            <==> Less(LiveType(AskSide), h.live[0], y)
                 && forall x :: x in h.stops && ShouldTrigger(price, x) ==> Less(LiveType(AskSide), Triggered(x), y)
  {
    hide Less, ShouldTrigger;
    LessIsStrictWeakOrder(LiveType(AskSide), h.live[0], r.live[0], y);
    if Less(LiveType(AskSide), r.live[0], y) {
      forall x | x in h.stops && ShouldTrigger(price, x) ensures Less(LiveType(AskSide), Triggered(x), y) {
        LessIsStrictWeakOrder(LiveType(AskSide), r.live[0], Triggered(x), y);
      }
    }
  }

  lemma WokenHeadFrom(h: Half, price: nat)
    requires ValidHalf(AskSide, h) && h.live != [] && forall x :: x in h.live ==> !Less(LiveType(AskSide), h.live[0], x)
    ensures var r := TriggerHalf(AskSide, h, price).live;
            r[0] == h.live[0] || exists x :: x in h.stops && ShouldTrigger(price, x) && r[0] == Triggered(x)
  {
    var r := TriggerHalf(AskSide, h, price);
    var w := WokenOf(AskSide, h, price);
    WokenHeadOutranks(h, price);
    TriggerContents(AskSide, h, price);
    WokenAreReached(AskSide, h, price);
    hide TriggerHalf, WokenOf, Less, ValidHalf;
    if r.live[0] != h.live[0] {
      assert r.live[0] in multiset(r.live);
      assert r.live[0] !in h.live;
      assert r.live[0] in multiset(TriggeredAll(w));
      var x := TriggeredMember(w, r.live[0]);
    }
  }

  /** So what is popped is closed if and only if PopsClosed says so. */
  lemma PoppedClosedAskIff(b: Book, bid: Order, f: Desk)
    requires InTurn(b, bid) && HonestClear(b, bid, f)
    requires if ClearFill(b, bid, f).traded then NoneCancelled(b.ask, b.m.progress, TradedAt(b, bid, f).1)
             else ClearFill(b, bid, f).ask != Undone && ClearFill(b, bid, f).bid != Undone
    ensures var r := ClearRound(b, bid, f);
            AllClosed(r.popped, r.b.m.progress) <==> (ClearFill(b, bid, f).ask != Undone ==> PopsClosed(b, bid, f))
  {
    var r := ClearRound(b, bid, f);
    InTurnTracked(b, bid);
    ClearRoundModels(b, bid, f);
    ClearHalves(b, bid, f);
    hide ClearRound, InTurn, HonestClear, ClearFill, AllClosed, Heap.IsHeap, Less, NoneCancelled, AsksAfterFill, PopsClosed;
    if r.askDone {
      PoppedAsk(b, bid, f);
      OneClosedIff(r.popped[0], r.b.m.progress);
      hide TopIn;
      PoppedOneClosedIff(b, bid, f, r.popped[0]);
    } else {
      NoneClosed(r.b.m.progress);
    }
  }

  lemma NoneClosed(pm: ProgressMap)
    ensures AllClosed([], pm)
  {
  }

  lemma OneClosedIff(x: Order, pm: ProgressMap)
    ensures AllClosed([x], pm) <==> Look(pm, x).isClosed
  {
    if AllClosed([x], pm) {
      assert x in [x];
    }
  }

  /** What is popped for a finished ask. */
  lemma PoppedAsk(b: Book, bid: Order, f: Desk)
    requires InTurn(b, bid) && ClearRound(b, bid, f).askDone
    ensures var (y, top, own) := (ClearRound(b, bid, f).popped[0], TopIn(b, AskSide, bid).0.value, TopIn(b, AskSide, bid).1);
            if OwnAbove(b, bid, f) then own != [] && y == own[0]
            else if WokenAbove(b, bid, f) then
              exists x :: x in b.ask.stops && ShouldTrigger(TradedAt(b, bid, f).1, x) && y == Triggered(x)
            else y == top
    ensures |ClearRound(b, bid, f).popped| == 1
  {
    var (top, own, rest) := TopIn(b, AskSide, bid);
    var (traded, price) := TradedAt(b, bid, f);
    var h := b.ask.(live := rest);
    InTurnTracked(b, bid);
    ClearHalves(b, bid, f);
    TopInHalf(b, AskSide, bid);
    Heap.HeadMaximal(LiveType(AskSide), rest);
    WokenHead(h, traded, price, if own != [] then own[0] else rest[0]);
    var a := AsksAfterFill(b, bid, f).live;
    HeadPutBack(a, b.ask.live, bid.userId);
    hide ClearRound, InTurn, Heap.IsHeap, Heap.PushAll, Less, ShouldTrigger, AfterFill, SkipOwn, ValidHalf;
  }

  lemma PoppedOneClosedIff(b: Book, bid: Order, f: Desk, y: Order)
    requires InTurn(b, bid) && HonestClear(b, bid, f) && ClearRound(b, bid, f).askDone
    requires ClearRound(b, bid, f).popped == [y]
    requires if ClearFill(b, bid, f).traded then NoneCancelled(b.ask, b.m.progress, TradedAt(b, bid, f).1)
             else ClearFill(b, bid, f).ask != Undone && ClearFill(b, bid, f).bid != Undone
    ensures Look(ClearFill(b, bid, f).m.progress, y).isClosed <==> PopsClosed(b, bid, f)
  {
    hide ClearRound, HonestClear, ClearFill, OwnAbove, WokenAbove, TopIn, OtherAsks, InTurn, ShouldTrigger, TradedAt, NoneCancelled, Look;
    InTurnTracked(b, bid);
    PoppedAsk(b, bid, f);
    ClearRoundModels(b, bid, f);
    if OwnAbove(b, bid, f) {
      OwnAreOthers(b, bid, TopIn(b, AskSide, bid).1[0]);
      AskUntouched(b, bid, f, TopIn(b, AskSide, bid).1[0]);
    } else if WokenAbove(b, bid, f) {
      WokenTrades(b, bid, f);
      forall x | x in b.ask.stops ensures Look(ClearFill(b, bid, f).m.progress, x) == Look(b.m.progress, x) {
        AskUntouched(b, bid, f, x);
      }
      WokenAskOpen(b.ask, b.m.progress, ClearFill(b, bid, f).m.progress, TradedAt(b, bid, f).1, y);
    } else {
      DoneAskIsClosed(b, bid, f);
    }
  }

  lemma WokenAskOpen(h: Half, pm: ProgressMap, pm': ProgressMap, price: nat, y: Order)
    requires NoneCancelled(h, pm, price) && forall x :: x in h.stops ==> Look(pm', x) == Look(pm, x)
    requires exists x :: x in h.stops && ShouldTrigger(price, x) && y == Triggered(x)
    ensures !Look(pm', y).isClosed
  {
    hide ShouldTrigger;
    var x :| x in h.stops && ShouldTrigger(price, x) && y == Triggered(x);
    assert y.id == x.id;
  }

  lemma OwnAreOthers(b: Book, bid: Order, x: Order)
    requires TopIn(b, AskSide, bid).0.Some? && x in TopIn(b, AskSide, bid).1
    ensures x in OtherAsks(b, bid)
  {
  }

  lemma WokenTrades(b: Book, bid: Order, f: Desk)
    requires TopIn(b, AskSide, bid).0.Some? && WokenAbove(b, bid, f)
    ensures ClearFill(b, bid, f).traded
  {
  }

  lemma DoneAskIsClosed(b: Book, bid: Order, f: Desk)
    requires InTurn(b, bid) && HonestClear(b, bid, f) && ClearFill(b, bid, f).ask != Undone
    ensures Look(ClearFill(b, bid, f).m.progress, TopIn(b, AskSide, bid).0.value).isClosed
  {
    ClearAnswered(b, bid, f);
    hide TopIn, ClearFill, InTurn;
  }

  lemma ClearAgreesIff(b: Book, bid: Order, f: Desk)
    requires InTurn(b, bid) && HonestClear(b, bid, f)
    ensures TopIn(b, AskSide, bid).0.Some?
    ensures var r := ClearRound(b, bid, f);
            ClearKeeps(b, bid, f) <==> Agrees(r.b.depth.ask, r.b.ask.live, r.b.m.progress)
                                       && Agrees(r.b.depth.bid, WithHeld(r.b.bid, r.next).live, r.b.m.progress)
  {
    InTurnTracked(b, bid);
    hide ClearRound, TopIn, InTurn, HonestClear, Valid, Agrees, WithHeld, ClearFill, TradedAt, NoneCancelled, AllClosed,
         ClearKeeps, ValidHalf, DepthHalf, PopsClosed;
    ClearKeepsIs(b, bid, f);
    if ClearFill(b, bid, f).traded {
      ClearTradeAsks(b, bid, f);
      ClearTradeBids(b, bid, f);
      if NoneCancelled(b.ask, b.m.progress, TradedAt(b, bid, f).1) { PoppedClosedAskIff(b, bid, f); }
    } else if ClearFill(b, bid, f).ask == Undone || ClearFill(b, bid, f).bid == Undone {
      ClearQuietBreaks(b, bid, f);
    } else {
      ClearClosedAsks(b, bid, f);
      ClearClosedBids(b, bid, f);
      PoppedClosedAskIff(b, bid, f);
    }
  }

  lemma ClearOkIff(b: Book, held: Option<Order>)
    requires Valid(b) && Tracked(b.ask, b.m.progress) && Tracked(WithHeld(b.bid, held), b.m.progress)
    ensures ClearOk(b, held) <==> Agrees(b.depth.ask, b.ask.live, b.m.progress)
                                  && Agrees(b.depth.bid, WithHeld(b.bid, held).live, b.m.progress)
  {
    hide Valid, Tracked, Agrees, WithHeld;
  }

  /** One turn of start-up matching, with any honest fill: both depths still equal the sums of the open
      quantities, the bid held next counted, if and only if the turn keeps them. */
  lemma ClearTurnIff(b: Book, bid: Order, f: Desk)
    requires InTurn(b, bid) && HonestClear(b, bid, f)
    ensures TopIn(b, AskSide, bid).0.Some?
    ensures ClearOk(ClearRound(b, bid, f).b, ClearRound(b, bid, f).next) <==> ClearKeeps(b, bid, f)
  {
    InTurnTracked(b, bid);
    hide ClearRound, TopIn, InTurn, HonestClear, Valid, Tracked, Agrees, WithHeld, ClearFill, ClearKeeps, ValidHalf, DepthHalf,
         ClearOk;
    ClearKeepsValid(b, bid, f);
    AskTracked(b, bid, f);
    BidTracked(b, bid, f);
    ClearAgreesIff(b, bid, f);
    ClearOkIff(ClearRound(b, bid, f).b, ClearRound(b, bid, f).next);
  }

  lemma ClearKeepsIs(b: Book, bid: Order, f: Desk)
    requires TopIn(b, AskSide, bid).0.Some?
    ensures var fill, price := ClearFill(b, bid, f), TradedAt(b, bid, f).1;
            ClearKeeps(b, bid, f) <==>
              && (if fill.traded then
                    NoneCancelled(b.ask, b.m.progress, price) && NoneCancelled(b.bid, b.m.progress, price)
                  else fill.ask != Undone && fill.bid != Undone)
              && (fill.ask != Undone ==> PopsClosed(b, bid, f))
  {
  }
}
