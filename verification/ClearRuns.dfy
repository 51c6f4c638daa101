/** The whole of start-up matching: the depth, and exactly when the book it leaves is uncrossed. */
module ClearRuns {
  import opened Orders
  import opened Wrappers
  import opened State
  import opened Matching
  import opened BookTheorems
  import opened NoOrderLost
  import opened Uncrossed
  import opened DepthAgrees
  import opened DepthStops
  import opened DepthRuns
  import opened ClearExisting
  import opened ClearDepth
  import Heap
  import Seqs

  ghost predicate IsHeld(bid: Order) {
    bid.id.side == BidSide && bid.oType != StopLoss
  }

  predicate Meets(b: Book, bid: Order) {
    TopIn(b, AskSide, bid).0.Some?
  }

  // -------------------------------------------------------------------------
  // The depth
  // -------------------------------------------------------------------------

  /** Every fill of the loop is answered honestly. */
  ghost predicate HonestClearing(b: Book, bid: Order, f: Desk)
    decreases |b.ask.live| + |b.ask.stops| + |b.bid.live| + |b.bid.stops|
  {
    && HonestClear(b, bid, f)
    && (Meets(b, bid) ==>
          var r := ClearRound(b, bid, f);
          GoesOn(r) ==> HonestClearing(r.b, r.next.value, f))
  }

  /** No turn of the loop breaks the depth. */
  ghost predicate ClearingKeeps(b: Book, bid: Order, f: Desk)
    decreases |b.ask.live| + |b.ask.stops| + |b.bid.live| + |b.bid.stops|
  {
    Meets(b, bid) ==>
      var r := ClearRound(b, bid, f);
      ClearKeeps(b, bid, f) && (GoesOn(r) ==> ClearingKeeps(r.b, r.next.value, f))
  }

  /** The depth is right after every turn, the bid held next counted. */
  ghost predicate ClearingRight(b: Book, bid: Order, f: Desk)
    decreases |b.ask.live| + |b.ask.stops| + |b.bid.live| + |b.bid.stops|
  {
    Meets(b, bid) ==>
      var r := ClearRound(b, bid, f);
      ClearOk(r.b, r.next) && (GoesOn(r) ==> ClearingRight(r.b, r.next.value, f))
  }

  /** The end of the loop: the skipped asks and the held bid go back. */
  function PutBack(b: Book, bid: Order): Book {
    var (_, own, rest) := TopIn(b, AskSide, bid);
    var b1 := b.SetLive(AskSide, Heap.PushAll(LiveType(AskSide), rest, own));
    b1.SetLive(BidSide, Heap.Push(LiveType(BidSide), b1.bid.live, bid))
  }

  lemma PutBackContents(b: Book, bid: Order)
    requires Valid(b) && IsHeld(bid)
    ensures var r := PutBack(b, bid);
            && multiset(r.ask.live) == multiset(b.ask.live) && multiset(r.bid.live) == multiset([bid] + b.bid.live)
            && r.ask.stops == b.ask.stops && r.bid.stops == b.bid.stops && r.depth == b.depth && r.m == b.m
            && ValidHalf(AskSide, r.ask) && ValidHalf(BidSide, r.bid)
  {
    assert ValidHalf(AskSide, b.Of(AskSide)) && ValidHalf(BidSide, b.Of(BidSide));
    var (_, own, rest) := TopIn(b, AskSide, bid);
    TopInHalf(b, AskSide, bid);
    PutBackRestores(LiveType(AskSide), b.ask.live, bid.userId);
    PushAllKeepsSide(AskSide, rest, own);
    Heap.PushRefines(LiveType(BidSide), b.bid.live, bid);
    PushHalf(BidSide, b.bid, bid);
    hide Population, TopIn, Heap.PushAll, Heap.Push, Heap.IsHeap;
    assert multiset([bid] + b.bid.live) == multiset{bid} + multiset(b.bid.live);
  }

  lemma PutBackKeepsDepth(b: Book, bid: Order)
    requires ClearOk(b, Some(bid)) && IsHeld(bid)
    ensures DepthOk(PutBack(b, bid))
  {
    var r := PutBack(b, bid);
    PutBackContents(b, bid);
    hide PutBack, Valid, ValidHalf;
    SameHalf(b.depth.ask, b.ask, r.ask, b.m.progress);
    SameHalf(b.depth.bid, WithHeld(b.bid, Some(bid)), r.bid, b.m.progress);
    hide DepthHalf;
    BothHalves(r, AskSide);
  }

  lemma NoBidHeld(b: Book)
    requires ClearOk(b, None)
    ensures DepthOk(b)
  {
    hide DepthHalf;
    assert ValidHalf(AskSide, b.Of(AskSide)) && ValidHalf(BidSide, b.Of(BidSide));
    BothHalves(b, AskSide);
  }

  /** A turn that keeps the depth finishes one of its two orders. */
  lemma KeepingFinishes(b: Book, bid: Order, f: Desk)
    requires InTurn(b, bid) && HonestClear(b, bid, f) && ClearKeeps(b, bid, f)
    ensures ClearRound(b, bid, f).askDone || ClearRound(b, bid, f).bidDone
  {
    hide ClearRound, TopIn, InTurn, HonestClear, NoneCancelled, AllClosed, ClearFill;
    InTurnTracked(b, bid);
    BothInTurn(b, bid);
    ClearAnswered(b, bid, f);
    ClearRoundModels(b, bid, f);
    hide ClearRound, TopIn, InTurn, HonestClear, NoneCancelled, AllClosed, ClearFill;
  }

  lemma NextIsHeld(b: Book, bid: Order, f: Desk)
    requires Valid(b) && IsHeld(bid) && Meets(b, bid)
    ensures Valid(ClearRound(b, bid, f).b)
    ensures var next := ClearRound(b, bid, f).next; next.Some? ==> IsHeld(next.value)
  {
    ClearBidSide(b, bid, f);
    ClearKeepsValid(b, bid, f);
    hide ClearRound, Population, Valid, ValidHalf;
  }

  lemma InTurnIff(b: Book, bid: Order)
    requires ClearOk(b, Some(bid)) && IsHeld(bid)
    ensures InTurn(b, bid) <==> Meets(b, bid)
    ensures Valid(b)
  {
    hide ClearOk;
    assert Valid(b) by { ClearOkValid(b, bid); }
  }

  lemma ClearOkValid(b: Book, bid: Order)
    requires ClearOk(b, Some(bid))
    ensures Valid(b)
  {
  }

  lemma LoopEnds(b: Book, bid: Order, f: Desk)
    ensures !Meets(b, bid) ==> ClearLoop(b, bid, f).b == PutBack(b, bid)
    ensures Meets(b, bid) ==> var r := ClearRound(b, bid, f);
                              ClearLoop(b, bid, f).b == if GoesOn(r) then ClearLoop(r.b, r.next.value, f).b else r.b
  {
    if Meets(b, bid) {
      var c := ClearStep(b, bid, f);
      hide ClearLoop, ClearRound;
    }
  }

  /** Over the whole loop, for any honest fills: the depth is right after every turn if and only if no turn
      breaks it, and then it is right at the end. */
  lemma {:induction false} ClearingKeepsDepthIff(b: Book, bid: Order, f: Desk)
    requires ClearOk(b, Some(bid)) && IsHeld(bid) && HonestClearing(b, bid, f)
    ensures ClearingRight(b, bid, f) <==> ClearingKeeps(b, bid, f)
    ensures ClearingKeeps(b, bid, f) ==> DepthOk(ClearLoop(b, bid, f).b)
    decreases |b.ask.live| + |b.ask.stops| + |b.bid.live| + |b.bid.stops|
  {
    hide ClearOk, HonestClear, ClearKeeps, ClearRound, ClearLoop, DepthOk, PutBack, InTurn, TopIn, Valid;
    InTurnIff(b, bid);
    LoopEnds(b, bid, f);
    if !Meets(b, bid) {
      PutBackKeepsDepth(b, bid);
    } else {
      var r := ClearRound(b, bid, f);
      ClearTurnIff(b, bid, f);
      NextIsHeld(b, bid, f);
      if ClearKeeps(b, bid, f) {
        KeepingFinishes(b, bid, f);
        if GoesOn(r) {
          ClearingKeepsDepthIff(r.b, r.next.value, f);
        } else {
          NoBidHeld(r.b);
        }
      }
    }
  }

  /** Start-up matching begins with the best bid taken off its queue. */
  lemma ClearingBegins(b: Book)
    requires DepthOk(b) && b.bid.live != []
    ensures var b1 := b.SetLive(BidSide, Heap.Pop(LiveType(BidSide), b.bid.live));
            ClearOk(b1, Some(b.bid.live[0])) && IsHeld(b.bid.live[0])
  {
    DepthOkAt(b, AskSide);
    DepthOkAt(b, BidSide);
    var bid, rest := b.bid.live[0], Heap.Pop(LiveType(BidSide), b.bid.live);
    var b1 := b.SetLive(BidSide, rest);
    Heap.PopRefines(LiveType(BidSide), b.bid.live);
    assert multiset([bid] + rest) == multiset{bid} + multiset(rest);
    Seqs.SameMembers(b.bid.live, rest, [bid]);
    assert b.bid.live[0] in b.bid.live;
    SameHalf(b.depth.bid, b.bid, WithHeld(b1.bid, Some(bid)), b.m.progress);
    forall s: Side ensures ValidHalf(s, b1.Of(s)) {
      assert s == AskSide || s == BidSide;
    }
  }

  // -------------------------------------------------------------------------
  // Is the book uncrossed?
  // -------------------------------------------------------------------------

  /** The loop ends because the held bid meets no other user's ask. */
  predicate EndsUnmatched(b: Book, bid: Order, f: Desk)
    decreases |b.ask.live| + |b.ask.stops| + |b.bid.live| + |b.bid.stops|
  {
    Meets(b, bid) ==>
      var r := ClearRound(b, bid, f);
      GoesOn(r) && EndsUnmatched(r.b, r.next.value, f)
  }

  /** The pair the loop cannot see: the last held bid's user owns the ask, or the bid ranks above it. */
  predicate Overlooked(last: Order, ask: Order, bid: Order) {
    ask.userId == last.userId || Less(LiveType(BidSide), last, bid)
  }

  lemma PutBackSeesOthers(b: Book, held: Order, ask: Order, bid: Order)
    requires Valid(b) && IsHeld(held) && !Meets(b, held) && Crossing(PutBack(b, held), ask, bid)
    ensures Overlooked(held, ask, bid)
  {
    var r := PutBack(b, held);
    PutBackContents(b, held);
    TopMatchCorrect(b, held);
    assert ValidHalf(BidSide, b.Of(BidSide)) && ValidHalf(AskSide, b.Of(AskSide));
    hide PutBack, TopIn, Heap.IsHeap;
    Seqs.SameMembers(r.ask.live, b.ask.live, []);
    Seqs.SameMembers(r.bid.live, [held], b.bid.live);
    assert ask in b.ask.live && (bid == held || bid in b.bid.live);
    if !Overlooked(held, ask, bid) {
      BestDecidesMatch(ask, held, bid);
    }
  }

  /** Bids that rank above the held one are market orders: stops woken since it was taken. */
  ghost predicate AboveIsMarket(b: Book, bid: Order) {
    forall c :: c in b.bid.live && Less(LiveType(BidSide), bid, c) ==> IsMarket(c.oType)
  }

  /** The best ask, if it is the held bid's user's own, meets no other user's bid. */
  predicate OwnMeetNobody(b: Book, bid: Order) {
    var own := TopIn(b, AskSide, bid).1;
    own == [] || TopIn(b, BidSide, own[0]).0.None?
  }

  /** Each bid that ranks above the held one has only its own user's asks opposite it. */
  ghost predicate AboveMeetNobody(b: Book, bid: Order) {
    forall c, a :: c in b.bid.live && a in b.ask.live && Less(LiveType(BidSide), bid, c) ==> a.userId == c.userId
  }

  lemma OwnIsHead(b: Book, bid: Order)
    requires Valid(b)
    ensures var (_, own, rest) := TopIn(b, AskSide, bid);
            && (own != [] ==> b.ask.live != [] && own[0] == b.ask.live[0] && own[0].userId == bid.userId)
            && (own == [] ==> rest == b.ask.live)
  {
    assert ValidHalf(AskSide, b.Of(AskSide));
    SkipOwnFacts(LiveType(AskSide), b.ask.live, bid.userId);
    if TopIn(b, AskSide, bid).1 != [] {
      OwnStarts(LiveType(AskSide), b.ask.live, bid.userId);
    }
  }

  /** An ask of the held bid's user that crosses a bid ranked no higher is the best ask, or that meets the
      bid too. */
  lemma OwnCrossing(b: Book, bid: Order, ask: Order, c: Order)
    requires Valid(b) && IsHeld(bid) && !Meets(b, bid) && OwnMeetNobody(b, bid)
    requires ask in b.ask.live && c in b.bid.live && ask.userId == bid.userId != c.userId
    requires !Less(LiveType(BidSide), bid, c)
    ensures !IsOrderMatching(ask, c)
  {
    var (_, own, rest) := TopIn(b, AskSide, bid);
    assert ValidHalf(AskSide, b.Of(AskSide)) && ValidHalf(BidSide, b.Of(BidSide));
    OwnIsHead(b, bid);
    Heap.HeadMaximal(LiveType(AskSide), b.ask.live);
    var head := b.ask.live[0];
    assert head in b.ask.live;
    if own != [] {
      TopMatchCorrect(b, head);
      hide TopIn, Heap.IsHeap;
      BestDecidesMatch(c, head, ask);
    } else {
      hide Heap.IsHeap, SkipOwn;
      BestDecidesMatch(bid, head, ask);
      BestDecidesMatch(ask, bid, c);
    }
  }

  /** A bid that meets no ask goes back: the book is then uncrossed if and only if neither its user's best ask
      nor a bid above it meets another user's order. */
  lemma PutBackUncrossedIff(b: Book, bid: Order)
    requires Valid(b) && IsHeld(bid) && !Meets(b, bid) && AboveIsMarket(b, bid)
    ensures IsUncrossed(PutBack(b, bid)) <==> OwnMeetNobody(b, bid) && AboveMeetNobody(b, bid)
  {
    var r, own := PutBack(b, bid), TopIn(b, AskSide, bid).1;
    PutBackContents(b, bid);
    OwnIsHead(b, bid);
    assert ValidHalf(AskSide, b.Of(AskSide));
    hide PutBack, TopIn, Heap.IsHeap, ValidHalf;
    Seqs.SameMembers(r.ask.live, b.ask.live, []);
    assert multiset([bid] + b.bid.live) == multiset{bid} + multiset(b.bid.live);
    Seqs.SameMembers(r.bid.live, [bid], b.bid.live);
    if !OwnMeetNobody(b, bid) {
      OwnMeets(b, bid);
      var c := TopIn(b, BidSide, own[0]).0.value;
      assert Crossing(r, own[0], c);
    } else if !AboveMeetNobody(b, bid) {
      var c, a :| c in b.bid.live && a in b.ask.live && Less(LiveType(BidSide), bid, c) && a.userId != c.userId;
      assert Crossing(r, a, c);
    } else {
      forall ask, c ensures !Crossing(r, ask, c) {
        if Crossing(r, ask, c) {
          PutBackSeesOthers(b, bid, ask, c);
          LessIsStrictWeakOrder(LiveType(BidSide), bid, bid, bid);
          if !Less(LiveType(BidSide), bid, c) {
            OwnCrossing(b, bid, ask, c);
          }
        }
      }
    }
  }

  lemma OwnMeets(b: Book, bid: Order)
    requires Valid(b) && !OwnMeetNobody(b, bid)
    ensures var own := TopIn(b, AskSide, bid).1;
            && own != [] && own[0] in b.ask.live
            && var c := TopIn(b, BidSide, own[0]).0.value;
               c in b.bid.live && c.userId != own[0].userId && IsOrderMatching(own[0], c)
  {
    var own := TopIn(b, AskSide, bid).1;
    OwnIsHead(b, bid);
    assert ValidHalf(AskSide, b.Of(AskSide));
    assert own[0] in b.ask.live;
    TopMatchCorrect(b, own[0]);
    hide SkipOwn, Heap.IsHeap;
  }

  /** A turn keeps it so: the next bid held is the best one, or the same with stops woken above it. */
  lemma TurnAboveIsMarket(b: Book, bid: Order, f: Desk)
    requires Valid(b) && IsHeld(bid) && Meets(b, bid) && AboveIsMarket(b, bid)
    ensures var r := ClearRound(b, bid, f); r.next.Some? ==> AboveIsMarket(r.b, r.next.value)
  {
    var r, h := ClearRound(b, bid, f), BidsAfterFill(b, bid, f);
    var (traded, price) := TradedAt(b, bid, f);
    assert ValidHalf(BidSide, b.Of(BidSide));
    ClearHalves(b, bid, f);
    AfterFillKeeps(BidSide, b.bid, traded, price);
    hide ClearRound, TopIn, AfterFill, TradedAt, Less, Heap.IsHeap;
    if !r.bidDone {
      forall c | c in r.b.bid.live && Less(LiveType(BidSide), bid, c) ensures IsMarket(c.oType) {
        AfterFillLive(BidSide, b.bid, traded, price, c);
        if c !in b.bid.live { ReachedFacts(BidSide, b.bid, price, c); }
      }
    } else if h.live != [] {
      Heap.PopRefines(LiveType(BidSide), h.live);
    }
  }

  /** At the end of the loop, the held bid's user's best ask and the bids above it meet nobody. */
  ghost predicate EndsMeetingNobody(b: Book, bid: Order, f: Desk)
    decreases |b.ask.live| + |b.ask.stops| + |b.bid.live| + |b.bid.stops|
  {
    if !Meets(b, bid) then OwnMeetNobody(b, bid) && AboveMeetNobody(b, bid)
    else
      var r := ClearRound(b, bid, f);
      GoesOn(r) && EndsMeetingNobody(r.b, r.next.value, f)
  }

  /** When the loop ends with a bid that meets no ask, the book is uncrossed if and only if, before that bid
      goes back, neither the best ask of its user nor a stop-loss woken above it meets another user's
      order. */
  lemma {:induction false} ClearedUncrossedIff(b: Book, bid: Order, f: Desk)
    requires Valid(b) && IsHeld(bid) && EndsUnmatched(b, bid, f) && AboveIsMarket(b, bid)
    ensures IsUncrossed(ClearLoop(b, bid, f).b) <==> EndsMeetingNobody(b, bid, f)
    decreases |b.ask.live| + |b.ask.stops| + |b.bid.live| + |b.bid.stops|
  {
    hide ClearRound, ClearLoop, IsUncrossed, AboveIsMarket, OwnMeetNobody, AboveMeetNobody, PutBack, Valid, TopIn;
    LoopEnds(b, bid, f);
    if !Meets(b, bid) {
      PutBackUncrossedIff(b, bid);
    } else {
      NextIsHeld(b, bid, f);
      TurnAboveIsMarket(b, bid, f);
      var r := ClearRound(b, bid, f);
      ClearedUncrossedIff(r.b, r.next.value, f);
    }
  }

  ghost predicate NoneAbove(b: Book, bid: Order) {
    forall c :: c in b.bid.live ==> !Less(LiveType(BidSide), bid, c)
  }

  /** Start-up matching begins with none above: the bid taken off is the best one. */
  lemma BeginsWithBest(b: Book)
    requires Valid(b) && b.bid.live != []
    ensures NoneAbove(b.SetLive(BidSide, Heap.Pop(LiveType(BidSide), b.bid.live)), b.bid.live[0])
  {
    assert ValidHalf(BidSide, b.Of(BidSide));
    Heap.PopRefines(LiveType(BidSide), b.bid.live);
  }

  /** Without dormant stops the next bid held is the best of those left. */
  lemma NextIsBest(b: Book, bid: Order, f: Desk)
    requires Valid(b) && IsHeld(bid) && Meets(b, bid) && NoStops(b) && NoneAbove(b, bid)
    ensures var r := ClearRound(b, bid, f); NoStops(r.b) && (r.next.Some? ==> NoneAbove(r.b, r.next.value))
  {
    var r := ClearRound(b, bid, f);
    assert ValidHalf(BidSide, b.Of(BidSide)) && b.Of(AskSide).stops == [] && b.Of(BidSide).stops == [];
    ClearHalves(b, bid, f);
    assert TriggerHalf(BidSide, b.bid, TradedAt(b, bid, f).1) == b.bid;
    var h := BidsAfterFill(b, bid, f);
    assert h == b.bid;
    assert AsksAfterFill(b, bid, f).stops == [];
    if h.live != [] {
      Heap.HeadMaximal(LiveType(BidSide), h.live);
      Heap.PopRefines(LiveType(BidSide), h.live);
      Seqs.SameMembers(h.live, Heap.Pop(LiveType(BidSide), h.live), [h.live[0]]);
    }
    hide ClearRound, TopIn, Heap.Pop, Heap.IsHeap, Less;
    forall s: Side ensures r.b.Of(s).stops == [] { assert s == AskSide || s == BidSide; }
  }

  /** At the end of the loop, the best ask of the held bid's user meets nobody. */
  predicate EndsOwnMeetNobody(b: Book, bid: Order, f: Desk)
    decreases |b.ask.live| + |b.ask.stops| + |b.bid.live| + |b.bid.stops|
  {
    if !Meets(b, bid) then OwnMeetNobody(b, bid)
    else
      var r := ClearRound(b, bid, f);
      GoesOn(r) && EndsOwnMeetNobody(r.b, r.next.value, f)
  }

  /** So without stop-losses it is uncrossed if and only if that user's best ask meets no other user's bid:
      such an ask is skipped for the held bid, and the loop stops there. */
  lemma {:induction false} ClearedWithoutStopsIff(b: Book, bid: Order, f: Desk)
    requires Valid(b) && IsHeld(bid) && EndsUnmatched(b, bid, f) && NoStops(b) && NoneAbove(b, bid)
    ensures IsUncrossed(ClearLoop(b, bid, f).b) <==> EndsOwnMeetNobody(b, bid, f)
    decreases |b.ask.live| + |b.ask.stops| + |b.bid.live| + |b.bid.stops|
  {
    hide ClearRound, ClearLoop, IsUncrossed, OwnMeetNobody, PutBack, Valid, TopIn, Less, NoStops;
    LoopEnds(b, bid, f);
    if !Meets(b, bid) {
      PutBackUncrossedIff(b, bid);
    } else {
      NextIsHeld(b, bid, f);
      NextIsBest(b, bid, f);
      hide NoneAbove;
      var r := ClearRound(b, bid, f);
      ClearedWithoutStopsIff(r.b, r.next.value, f);
    }
  }
}
