/** The accounts as the matcher's fill: what they can answer, and exactly which of their answers break the
    depth. */
module RealFills {
  import opened Words
  import opened Orders
  import opened State
  import opened Matching
  import opened BookTheorems
  import opened NoOrderLost
  import opened DepthAgrees
  import opened DepthStops
  import opened DepthTurn
  import opened DepthRuns
  import opened Reservations
  import opened OrderLife
  import Accounts

  /** How many writes succeed, which may depend on what is filled or woken. */
  datatype Writes = Writes(fill: (Models, Order, Order) -> nat, wake: (Models, Order) -> nat)

  /** Fills and wakings by the accounts. */
  function FillWith(budget: Writes): Desk {
    Desk((m: Models, ask: Order, bid: Order, price: nat, qty: nat)
           => Accounts.Fill(m, ask, bid, price, qty, budget.fill(m, ask, bid)),
         (m: Models, o: Order) => budget.wake(m, o) > 0)
  }

  /** The accounts know both users, and the users differ. */
  ghost predicate UsersKnown(m: Models, a: Order, b: Order) {
    a.userId in m.users && b.userId in m.users && a.userId != b.userId
  }

  lemma ClosedAnswer(m: Models, a: Order, b: Order, price: nat, qty: nat, budget: nat)
    requires UsersKnown(m, a, b) && (Look(m.progress, a).isClosed || Look(m.progress, b).isClosed)
    ensures var r := Accounts.Fill(m, a, b, price, qty, budget);
            && !r.traded && r.m == m
            && r.ask == (if Look(m.progress, a).isClosed then AlreadyClosed else Undone)
            && r.bid == (if Look(m.progress, b).isClosed then AlreadyClosed else Undone)
  {
    hide Accounts.CashLeft, Accounts.TradeRows, Accounts.Traded, Accounts.Refund, Accounts.StockAfterTrade;
  }

  lemma NoFillAnswer(m: Models, a: Order, b: Order, price: nat, qty: nat, budget: nat)
    requires UsersKnown(m, a, b) && !Look(m.progress, a).isClosed && !Look(m.progress, b).isClosed
    requires var r := Accounts.Fill(m, a, b, price, qty, budget); !r.traded && r.bid != Done
    ensures var r := Accounts.Fill(m, a, b, price, qty, budget); r.ask == Undone == r.bid
  {
    hide Accounts.CashLeft, Accounts.TradeRows, Accounts.Traded, Accounts.Refund, Accounts.StockAfterTrade;
  }

  lemma ClosedShortAnswer(m: Models, a: Order, b: Order, price: nat, qty: nat, budget: nat)
    requires var r := Accounts.Fill(m, a, b, price, qty, budget); !r.traded && r.bid == Done
    ensures Accounts.Fill(m, a, b, price, qty, budget).ask == Undone
  {
    hide Accounts.CashLeft, Accounts.TradeRows, Accounts.Traded, Accounts.Refund, Accounts.StockAfterTrade;
  }

  lemma TradeHonest(m: Models, a: Order, b: Order, price: nat, qty: nat, budget: nat)
    requires a.id != b.id && Accounts.Fill(m, a, b, price, qty, budget).traded
    ensures Honest(m, a, b, qty, Accounts.Fill(m, a, b, price, qty, budget))
  {
    hide Accounts.Fill, Accounts.CashLeft, Accounts.TradeRows, Accounts.Portion, Accounts.AskTax, Accounts.BidTax, Accounts.Max0, Wrap64;
    TradeShape(m, a, b, price, qty, budget);
  }

  lemma ClosedShortHonest(m: Models, a: Order, b: Order, price: nat, qty: nat, budget: nat)
    requires a.id != b.id
    requires var r := Accounts.Fill(m, a, b, price, qty, budget); !r.traded && r.bid == Done
    ensures Honest(m, a, b, qty, Accounts.Fill(m, a, b, price, qty, budget))
  {
    ClosedShape(m, a, b, price, qty, budget);
    ClosedShortAnswer(m, a, b, price, qty, budget);
    hide Accounts.Fill, Accounts.CashLeft, Accounts.Refund;
  }

  lemma NothingHonest(m: Models, a: Order, b: Order, price: nat, qty: nat, budget: nat)
    requires UsersKnown(m, a, b)
    requires var r := Accounts.Fill(m, a, b, price, qty, budget); !r.traded && r.bid != Done
    ensures Honest(m, a, b, qty, Accounts.Fill(m, a, b, price, qty, budget))
  {
    NoFill(m, a, b, price, qty, budget);
    if Look(m.progress, a).isClosed || Look(m.progress, b).isClosed {
      ClosedAnswer(m, a, b, price, qty, budget);
    } else {
      NoFillAnswer(m, a, b, price, qty, budget);
    }
    hide Accounts.Fill, Accounts.CashLeft, HalfCloses;
  }

  /** Whatever the accounts answer is honest, with any number of writes succeeding. */
  lemma FillHonest(m: Models, a: Order, b: Order, price: nat, qty: nat, budget: nat)
    requires UsersKnown(m, a, b) && a.id != b.id
    ensures Honest(m, a, b, qty, Accounts.Fill(m, a, b, price, qty, budget))
  {
    hide Honest, Accounts.Fill;
    var r := Accounts.Fill(m, a, b, price, qty, budget);
    if r.traded {
      TradeHonest(m, a, b, price, qty, budget);
    } else if r.bid == Done {
      ClosedShortHonest(m, a, b, price, qty, budget);
    } else {
      NothingHonest(m, a, b, price, qty, budget);
    }
  }

  // -------------------------------------------------------------------------
  // What the accounts answer, by cash and writes
  // -------------------------------------------------------------------------

  /** The buyer's cash and the bid's share of its reservation cover the trade. */
  predicate CanPay(m: Models, b: Order, price: nat, qty: nat) {
    && b.userId in m.users && b.id in m.deposits
    && Signed64(m.users[b.userId].cash) + Unit(m.deposits, b) * qty >= price * qty
  }

  /** Two open orders trade exactly when the buyer can pay and everything can be written. */
  lemma TradesIff(m: Models, a: Order, b: Order, price: nat, qty: nat, budget: nat)
    requires Booked(m) && Known(m, b) && b.id.side == BidSide && 0 < qty <= Unfulfilled(b, Look(m.progress, b))
    requires UsersKnown(m, a, b) && !Look(m.progress, a).isClosed && !Look(m.progress, b).isClosed
    ensures Accounts.Fill(m, a, b, price, qty, budget).traded
            <==> CanPay(m, b, price, qty) && budget >= Accounts.WritesNeeded(m, a, b, price, qty)
  {
    FillGuards(m, a, b, price, qty, budget);
    if b.id in m.deposits {
      BidShare(m, b, qty);
    }
    hide Accounts.Fill, Accounts.AskTax, Accounts.BidTax, Accounts.FillWrites, Booked, Known, Accounts.Portion, Unit;
  }

  /** The next turn's two orders and terms. */
  function NextPair(b: Book, o: Order): (r: (Order, Order))
    requires HasMatch(b, o)
  {
    var top := TopMatch(b, o).0.value;
    if o.id.side == AskSide then (o, top) else (top, o)
  }

  /** The orders of the next turn are of known users. */
  ghost predicate NextKnown(b: Book, o: Order)
    requires HasMatch(b, o)
  {
    var (ask, bid) := NextPair(b, o);
    UsersKnown(b.m, ask, bid)
  }

  /** The next fill trades... */
  ghost predicate NextTrades(b: Book, o: Order, budget: Writes)
    requires HasMatch(b, o)
  {
    var (ask, bid) := NextPair(b, o);
    Trades(b.m, ask, bid, NextPrice(b, o), NextQty(b, o), budget.fill(b.m, ask, bid))
  }

  /** ...or closes the bid for lack of cash. */
  ghost predicate NextClosesShort(b: Book, o: Order, budget: Writes)
    requires HasMatch(b, o)
  {
    var (ask, bid) := NextPair(b, o);
    ClosesShort(b.m, ask, bid, NextPrice(b, o), NextQty(b, o), budget.fill(b.m, ask, bid))
  }

  /** The fill of the next turn is the accounts' on the two orders. */
  lemma NextIs(b: Book, o: Order, budget: Writes)
    requires HasMatch(b, o)
    ensures var (ask, bid) := NextPair(b, o);
            && NextFill(b, o, FillWith(budget))
               == Accounts.Fill(b.m, ask, bid, NextPrice(b, o), NextQty(b, o), budget.fill(b.m, ask, bid))
            && NextQty(b, o) == Min(Unfulfilled(ask, b.Progress(ask)), Unfulfilled(bid, b.Progress(bid)))
  {
    hide Accounts.Fill, TopMatch, TradePrice, Unfulfilled;
  }

  lemma NextHonest(b: Book, o: Order, budget: Writes)
    requires Sound(b) && HasMatch(b, o) && NextKnown(b, o)
    ensures HonestTurn(b, o, FillWith(budget))
  {
    var (ask, bid) := NextPair(b, o);
    TopIsCounter(b, o);
    hide TopMatch, Sound, Accounts.Fill, Honest;
    FillHonest(b.m, ask, bid, TradeTerms(b, ask, bid).0, NextQty(b, o), budget.fill(b.m, ask, bid));
    SameQty(b, ask, bid);
  }

  lemma SameQty(b: Book, ask: Order, bid: Order)
    ensures TradeTerms(b, ask, bid).1 == Min(Unfulfilled(ask, b.Progress(ask)), Unfulfilled(bid, b.Progress(bid)))
  {
  }

  /** Exactly when the accounts' answer to a turn leaves the depth right: the counter-order was closed
      before; or it trades, wakes no stop-loss that was cancelled while dormant, and does not finish a
      counter-order that a woken stop-loss overtakes; or an ask comes in and the resting bid is closed for
      lack of cash. In the other cases, whether the incoming bid lacks the cash or a write fails, the depth
      forgets an order that stays in the queue. */
  ghost predicate AnswerKeeps(b: Book, o: Order, budget: Writes)
    requires HasMatch(b, o)
  {
    var top, pm := TopMatch(b, o).0.value, b.m.progress;
    || Look(pm, top).isClosed
    || (NextTrades(b, o, budget) && (forall s: Side :: NoneCancelled(b.Of(s), pm, NextPrice(b, o)))
        && (NextQty(b, o) == Unfulfilled(top, Look(pm, top)) ==> !StopAbove(b, o)))
    || (o.id.side == AskSide && NextClosesShort(b, o, budget))
  }

  /** What the next fill answers. */
  lemma NextAnswer(b: Book, o: Order, budget: Writes)
    requires Sound(b) && Arriving(b, o) && HasMatch(b, o) && NextKnown(b, o)
    ensures var r, f, top, pm := NextFill(b, o, FillWith(budget)), FillWith(budget), TopMatch(b, o).0.value, b.m.progress;
            && (r.traded <==> NextTrades(b, o, budget))
            && (r.traded ==> (TopStatus(b, o, f) != Undone <==> NextQty(b, o) == Unfulfilled(top, Look(pm, top))))
            && (!r.traded ==> (TopStatus(b, o, f) != Undone
                               <==> Look(pm, top).isClosed || (o.id.side == AskSide && NextClosesShort(b, o, budget))))
            && (!r.traded ==> (OwnStatus(b, o, f) != Undone
                               <==> Look(pm, o).isClosed || (o.id.side == BidSide && NextClosesShort(b, o, budget))))
  {
    hide TopMatch, Sound, Accounts.Fill, Trades, ClosesShort, Honest, HonestTurn;
    var (ask, bid) := NextPair(b, o);
    var n := budget.fill(b.m, ask, bid);
    TopIsCounter(b, o);
    NextIs(b, o, budget);
    FillGuards(b.m, ask, bid, NextPrice(b, o), NextQty(b, o), n);
    var r := Accounts.Fill(b.m, ask, bid, NextPrice(b, o), NextQty(b, o), n);
    if r.traded {
      TradedStatus(b.m, ask, bid, NextPrice(b, o), NextQty(b, o), n);
    } else if Look(b.m.progress, ask).isClosed || Look(b.m.progress, bid).isClosed {
      ClosedAnswer(b.m, ask, bid, NextPrice(b, o), NextQty(b, o), n);
    } else if r.bid == Done {
      ClosedShortAnswer(b.m, ask, bid, NextPrice(b, o), NextQty(b, o), n);
    } else {
      NoFillAnswer(b.m, ask, bid, NextPrice(b, o), NextQty(b, o), n);
    }
  }

  lemma TradedStatus(m: Models, a: Order, b: Order, price: nat, qty: nat, budget: nat)
    requires Accounts.Fill(m, a, b, price, qty, budget).traded
    requires WellFilled(a, m.progress) && WellFilled(b, m.progress)
    requires qty <= Unfulfilled(a, Look(m.progress, a)) && qty <= Unfulfilled(b, Look(m.progress, b))
    ensures var r := Accounts.Fill(m, a, b, price, qty, budget);
            && (r.ask == Done <==> qty == Unfulfilled(a, Look(m.progress, a)))
            && (r.bid == Done <==> qty == Unfulfilled(b, Look(m.progress, b)))
            && r.ask != AlreadyClosed && r.bid != AlreadyClosed
  {
    TradeShape(m, a, b, price, qty, budget);
    hide Accounts.Fill, Accounts.CashLeft, Accounts.TradeRows;
  }

  lemma AnswerKeepsIff(b: Book, o: Order, budget: Writes)
    requires Sound(b) && Arriving(b, o) && HasMatch(b, o) && NextKnown(b, o)
    ensures KeepsDepth(b, o, FillWith(budget)) <==> AnswerKeeps(b, o, budget)
  {
    hide TopMatch, Sound, NextFill, NextPrice, NextQty, Arriving, NextTrades, NextClosesShort, StopAbove, NoneCancelled, TopStatus, OwnStatus;
    NextAnswer(b, o, budget);
    if NextTrades(b, o, budget) || NextClosesShort(b, o, budget) {
      NextTradesOpen(b, o, budget);
    }
  }

  lemma NextTradesOpen(b: Book, o: Order, budget: Writes)
    requires HasMatch(b, o) && (NextTrades(b, o, budget) || NextClosesShort(b, o, budget))
    ensures !Look(b.m.progress, o).isClosed && !Look(b.m.progress, TopMatch(b, o).0.value).isClosed
    ensures !(NextTrades(b, o, budget) && NextClosesShort(b, o, budget))
  {
    hide TopMatch, Accounts.CashLeft;
  }

  /** One turn over the real accounts, with any dormant stop-losses and any writes failing: the depth is right
      afterwards if and only if the answer keeps it. */
  lemma RealTurnKeepsDepthIff(b: Book, o: Order, budget: Writes)
    requires DepthOk(b) && Arriving(b, o) && HasMatch(b, o) && NextKnown(b, o)
    ensures DepthOk(PlayRound(b, o, FillWith(budget)).b) <==> AnswerKeeps(b, o, budget)
  {
    SoundOf(b);
    hide DepthOk, Sound, Arriving, PlayRound, KeepsDepth, AnswerKeeps, HonestTurn, TopMatch;
    NextHonest(b, o, budget);
    TurnKeepsDepthIff(b, o, FillWith(budget));
    AnswerKeepsIff(b, o, budget);
  }

  // -------------------------------------------------------------------------
  // When the matcher drops an order
  // -------------------------------------------------------------------------

  /** Both orders are open, but the bid has no deposit, or fewer writes succeed than the trade, or closing
      the bid for lack of cash, takes. */
  ghost predicate AnswerFails(b: Book, o: Order, budget: Writes)
    requires HasMatch(b, o) && NextKnown(b, o)
  {
    var (ask, bid) := NextPair(b, o);
    var m, price, qty, n := b.m, NextPrice(b, o), NextQty(b, o), budget.fill(b.m, ask, bid);
    && !Look(m.progress, ask).isClosed && !Look(m.progress, bid).isClosed
    && (bid.id in m.deposits ==> n < WritesWanted(m, ask, bid, price, qty))
  }

  /** The trade's, if the buyer's cash and the bid's share of its reservation cover it. */
  function WritesWanted(m: Models, ask: Order, bid: Order, price: nat, qty: nat): nat
    requires ask.userId in m.users && bid.userId in m.users && bid.id in m.deposits
  {
    if Accounts.CashLeft(Accounts.PartiesOf(m, ask, bid), bid, m.deposits[bid.id], price, qty) >= Accounts.MINIMUM_CASH_LIMIT
    then Accounts.WritesNeeded(m, ask, bid, price, qty)
    else Accounts.CLOSE_WRITES
  }

  /** A turn ends with neither order done if and only if the answer fails. */
  lemma TurnFailsIff(b: Book, o: Order, budget: Writes)
    requires Sound(b) && Arriving(b, o) && HasMatch(b, o) && NextKnown(b, o)
    ensures var r := PlayRound(b, o, FillWith(budget));
            !r.done && !r.topDone <==> AnswerFails(b, o, budget)
  {
    NextHonest(b, o, budget);
    NextAnswer(b, o, budget);
    TurnKeepsArriving(b, o, FillWith(budget));
    RoundHalves(b, o, FillWith(budget));
    NextOpenGuards(b, o, budget);
    hide PlayRound, NextFill, TopMatch, Sound, HonestTurn, Arriving, NextTrades, NextClosesShort, AnswerFails;
  }

  lemma NextOpenGuards(b: Book, o: Order, budget: Writes)
    requires Sound(b) && Arriving(b, o) && HasMatch(b, o) && NextKnown(b, o)
    ensures AnswerFails(b, o, budget)
            <==> !Look(b.m.progress, o).isClosed && !Look(b.m.progress, TopMatch(b, o).0.value).isClosed
                 && !NextTrades(b, o, budget) && !NextClosesShort(b, o, budget)
  {
    TopIsCounter(b, o);
    NextIs(b, o, budget);
    hide TopMatch, Sound, Accounts.Fill, Accounts.CashLeft, Accounts.FillWrites, NextFill, NextPrice;
  }

  /** Some turn of the call fails. */
  ghost predicate CallFails(b: Book, o: Order, budget: Writes)
    decreases |b.Live(Opposite(o.id.side))| + |b.Of(Opposite(o.id.side)).stops|
  {
    && HasMatch(b, o) && NextKnown(b, o)
    && var r := PlayRound(b, o, FillWith(budget));
       AnswerFails(b, o, budget) || (r.topDone && !r.done && CallFails(r.b, o, budget))
  }

  /** An incoming order ends up open and in no queue if and only if some turn of its call fails. */
  lemma {:induction false} DroppedIff(b: Book, o: Order, budget: Writes)
    requires Sound(b) && Arriving(b, o) && AllUsersKnown(b, o)
    ensures var r := Process(b, o, FillWith(budget)).b;
            o !in Population(r.Of(o.id.side)) && !Look(r.m.progress, o).isClosed <==> CallFails(b, o, budget)
    ensures Process(b, o, FillWith(budget)).end == Failed <==> CallFails(b, o, budget)
    decreases |b.Live(Opposite(o.id.side))| + |b.Of(Opposite(o.id.side)).stops|
  {
    hide Sound, Arriving, PlayRound, Rest, AllUsersKnown, TopMatch, HonestTurn, Population, AnswerFails;
    var f := FillWith(budget);
    if HasMatch(b, o) {
      var r := PlayRound(b, o, f);
      TurnUsers(b, o, budget);
      NextHonest(b, o, budget);
      TurnFailsIff(b, o, budget);
      TurnSound(b, o, f);
      TurnKeepsArriving(b, o, f);
      UsersStay(b, o, budget);
      ArrivingUnseen(r.b, o);
      if r.topDone && !r.done {
        DroppedIff(r.b, o, budget);
      }
    } else {
      SoundAt(b, o.id.side);
      assert o.oType != StopLoss by { ArrivingUnseen(b, o); }
      RestOwnSide(b, o);
      assert o in multiset{o};
    }
  }

  lemma ArrivingUnseen(b: Book, o: Order)
    requires Arriving(b, o)
    ensures o.oType != StopLoss && o !in Population(b.Of(o.id.side))
  {
  }

  // -------------------------------------------------------------------------
  // A whole call
  // -------------------------------------------------------------------------

  /** The users of an order and of all orders on the other side, dormant ones included, are known. */
  ghost predicate AllUsersKnown(b: Book, o: Order) {
    o.userId in b.m.users && forall x :: x in Population(b.Of(Opposite(o.id.side))) ==> x.userId in b.m.users
  }

  lemma TurnUsers(b: Book, o: Order, budget: Writes)
    requires Sound(b) && HasMatch(b, o) && AllUsersKnown(b, o)
    ensures NextKnown(b, o)
  {
    TopIsCounter(b, o);
    assert Valid(b);
    TopMatchCorrect(b, o);
    LiveInPopulation(b.Of(Opposite(o.id.side)), TopMatch(b, o).0.value);
    hide TopMatch, Sound, Population;
  }

  lemma SameUsers(b: Book, o: Order, budget: Writes)
    requires HasMatch(b, o)
    ensures NextFill(b, o, FillWith(budget)).m.users.Keys == b.m.users.Keys
  {
    NextIs(b, o, budget);
    hide Accounts.FillResultOf, TopMatch, NextFill;
  }

  lemma UsersStay(b: Book, o: Order, budget: Writes)
    requires Sound(b) && HasMatch(b, o) && AllUsersKnown(b, o)
    ensures AllUsersKnown(PlayRound(b, o, FillWith(budget)).b, o)
  {
    var s, r := Opposite(o.id.side), PlayRound(b, o, FillWith(budget));
    SoundAt(b, s);
    RoundConserves(b, o, FillWith(budget));
    RoundHalves(b, o, FillWith(budget));
    SameUsers(b, o, budget);
    hide PlayRound, TopMatch, Population, Sound, Valid, NextFill, AfterWakes;
    forall x | x in Population(r.b.Of(s)) ensures x in Population(b.Of(s)) {
      assert Population(r.b.Of(s)) <= Population(b.Of(s));
    }
  }

  /** Every answer the accounts give during a call is honest. */
  lemma {:induction false} RealCallHonest(b: Book, o: Order, budget: Writes)
    requires Sound(b) && Arriving(b, o) && AllUsersKnown(b, o)
    ensures HonestCall(b, o, FillWith(budget))
    decreases |b.Live(Opposite(o.id.side))| + |b.Of(Opposite(o.id.side)).stops|
  {
    hide Sound, Arriving, PlayRound, AllUsersKnown, TopMatch;
    var f := FillWith(budget);
    if HasMatch(b, o) {
      TurnUsers(b, o, budget);
      NextHonest(b, o, budget);
      TurnSound(b, o, f);
      TurnKeepsArriving(b, o, f);
      UsersStay(b, o, budget);
      hide HonestTurn;
      var r := PlayRound(b, o, f);
      if r.topDone && !r.done {
        RealCallHonest(r.b, o, budget);
      }
    } else {
      hide Honest;
    }
  }

  /** No answer of the call breaks the depth, and a cancelled order does not rest. */
  ghost predicate AnswersKeep(b: Book, o: Order, budget: Writes)
    decreases |b.Live(Opposite(o.id.side))| + |b.Of(Opposite(o.id.side)).stops|
  {
    if !HasMatch(b, o) then !Look(b.m.progress, o).isClosed
    else
      var r := PlayRound(b, o, FillWith(budget));
      AnswerKeeps(b, o, budget) && (r.topDone && !r.done ==> AnswersKeep(r.b, o, budget))
  }

  lemma {:induction false} AnswersKeepIff(b: Book, o: Order, budget: Writes)
    requires Sound(b) && Arriving(b, o) && AllUsersKnown(b, o)
    ensures CallKeeps(b, o, FillWith(budget)) <==> AnswersKeep(b, o, budget)
    decreases |b.Live(Opposite(o.id.side))| + |b.Of(Opposite(o.id.side)).stops|
  {
    hide Sound, Arriving, PlayRound, AllUsersKnown, TopMatch, HonestTurn, KeepsDepth, AnswerKeeps;
    var f := FillWith(budget);
    if HasMatch(b, o) {
      TurnUsers(b, o, budget);
      NextHonest(b, o, budget);
      AnswerKeepsIff(b, o, budget);
      TurnSound(b, o, f);
      TurnKeepsArriving(b, o, f);
      UsersStay(b, o, budget);
      var r := PlayRound(b, o, f);
      if r.topDone && !r.done {
        AnswersKeepIff(r.b, o, budget);
      }
    }
  }

  /** A call over the real accounts, with any dormant stop-losses and any writes failing: the depth is right
      after every turn if and only if every answer keeps it, and then it is right at the end; without dormant
      stop-losses it is right at the end only then. */
  lemma RealCallKeepsDepthIff(b: Book, o: Order, budget: Writes)
    requires DepthOk(b) && Arriving(b, o) && StillToFill(b, o) && AllUsersKnown(b, o)
    ensures RightThroughout(b, o, FillWith(budget)) <==> AnswersKeep(b, o, budget)
    ensures AnswersKeep(b, o, budget) ==> DepthOk(Process(b, o, FillWith(budget)).b)
    ensures NoStops(b) ==> (DepthOk(Process(b, o, FillWith(budget)).b) <==> AnswersKeep(b, o, budget))
  {
    SoundOf(b);
    hide DepthOk, Sound, Arriving, AllUsersKnown, StillToFill, NoStops;
    RealCallHonest(b, o, budget);
    AnswersKeepIff(b, o, budget);
    ArrivalKeepsDepthIff(b, o, FillWith(budget));
    if NoStops(b) {
      ProcessKeepsDepthIff(b, o, FillWith(budget));
    }
  }
}
