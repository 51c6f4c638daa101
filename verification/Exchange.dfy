/** One stock's book over the real accounts: its limit orders and market asks are placed, matched, filled and
    cancelled while the same accounts do anything else, and what the book promises and what the ledger
    promises hold together in every run, from a restart of the server on. */
module Exchange {
  import opened Words
  import opened Orders
  import opened State
  import opened Depths
  import opened Matching
  import opened BookTheorems
  import opened NoOrderLost
  import opened Uncrossed
  import opened DepthAgrees
  import opened DepthTurn
  import opened DepthRuns
  import opened Reservations
  import opened OrderLife
  import opened RealFills
  import Accounts
  import Seqs

  /** More database writes than any operation makes: none fails. */
  const PLENTY: nat := 20

  function AlwaysPlenty(): Writes {
    Writes((m: Models, ask: Order, bid: Order) => PLENTY, (m: Models, o: Order) => PLENTY)
  }

  function RealFill(): Desk {
    FillWith(AlwaysPlenty())
  }

  /** An order for this stock, a cancellation, or any other operation on the same accounts. */
  datatype Event = Arrive(o: Order, fee: nat) | Withdraw(userId: nat, o: Order) | Elsewhere(op: Accounts.Op)

  function Place(m: Models, o: Order, fee: nat): Accounts.Placement {
    if o.id.side == AskSide then Accounts.PlaceAsk(m, o, fee, PLENTY) else Accounts.PlaceBid(m, o, fee, PLENTY)
  }

  /** An order the accounts accept goes to the matcher; a cancellation they accept goes to the book. */
  function Step(b: Book, e: Event): Book {
    match e
    case Arrive(o, fee) =>
      var r := Place(b.m, o, fee);
      if r.error.Some? then b.(m := r.m) else Process(b.(m := r.m), o, RealFill()).b
    case Withdraw(u, o) =>
      var r := Accounts.Cancel(b.m, u, o, PLENTY);
      if r.error.Some? then b.(m := r.m) else CancelInBook(b.(m := r.m), o)
    case Elsewhere(op) => b.(m := Accounts.Do(b.m, op))
  }

  function Run(b: Book, es: seq<Event>): Book
    decreases |es|
  {
    if es == [] then b else Run(Step(b, es[0]), es[1..])
  }

  /** Operations on other stocks' orders, purchases, mortgages and squaring off. */
  predicate OtherStock(op: Accounts.Op, stockId: nat) {
    match op
    case PlaceBidOp(o, _, _) => o.stockId != stockId
    case PlaceAskOp(o, _, _) => o.stockId != stockId
    case FillOp(a, b, _, _, _) => a.stockId != stockId && b.stockId != stockId
    case CancelOp(_, o, _) => o.stockId != stockId
    case WakeOp(o, _) => o.stockId != stockId
    case _ => true
  }

  /** Signed cash is not negative: nobody is in debt, and balances stay below 2^63. */
  ghost predicate Small(m: Models) {
    forall u :: u in m.users ==> m.users[u].cash < TWO_63
  }

  /** The same throughout the call. */
  ghost predicate SmallCall(b: Book, o: Order)
    decreases |b.Live(Opposite(o.id.side))| + |b.Of(Opposite(o.id.side)).stops|
  {
    && Small(b.m)
    && (HasMatch(b, o) ==>
          var r := PlayRound(b, o, RealFill());
          r.topDone && !r.done ==> SmallCall(r.b, o))
  }

  /** This stock's events, without stop-losses and market bids, and any legal operation beside them that
      does not use a reservation twice. */
  ghost predicate Usual(b: Book, stockId: nat, e: Event) {
    match e
    case Arrive(o, fee) =>
      && o.id !in b.m.progress && o.stockId == stockId && o.oType != StopLoss && o.oType != StopLossActive
      && (o.id.side == BidSide ==> o.oType == Limit)
      && SmallCall(b.(m := Place(b.m, o, fee).m), o)
    case Withdraw(_, o) => o.stockId == stockId && (Accounts.Findable(b.m, o) ==> o in b.m.orders)
    case Elsewhere(op) => Legal(b.m, op) && !Misbooks(b.m, op) && OtherStock(op, stockId)
  }

  ghost predicate UsualRun(b: Book, stockId: nat, es: seq<Event>)
    decreases |es|
  {
    es != [] ==> Usual(b, stockId, es[0]) && UsualRun(Step(b, es[0]), stockId, es[1..])
  }

  // -------------------------------------------------------------------------
  // The invariant
  // -------------------------------------------------------------------------

  ghost predicate Resting(m: Models, stockId: nat, x: Order) {
    x in m.orders && x.stockId == stockId && (x.id.side == BidSide ==> x.oType == Limit)
  }

  /** The queues hold placed orders of this stock, and all of its open ones, those in skip apart. */
  ghost predicate BookMirrors(b: Book, stockId: nat, skip: set<OrderId>) {
    && (forall x :: x in b.ask.live || x in b.bid.live ==> Resting(b.m, stockId, x))
    && (forall x :: x in b.m.orders && x.stockId == stockId && x.id !in skip && !Look(b.m.progress, x).isClosed
                    ==> x in b.Live(x.id.side))
  }

  /** The row is what the queue holds; while it is open cancellations find that object, and a bid has its
      deposit. */
  ghost predicate Synced(m: Models, x: Order) {
    var p, e := Look(m.progress, x), EntryOf(m, x.id);
    p == Look(m.stored, x) && (!p.isClosed ==> e == Shared && Covered(m, x)) && (e.Copy? ==> e.copy.isClosed)
  }

  ghost predicate AllSynced(m: Models, stockId: nat) {
    forall x :: x in m.orders && x.stockId == stockId ==> Synced(m, x)
  }

  ghost predicate Accounted(m: Models, stockId: nat) {
    Booked(m) && AllSynced(m, stockId)
  }

  /** A book that is right and holds what the accounts say. */
  ghost predicate Settled(b: Book, stockId: nat) {
    DepthOk(b) && NoStops(b) && BookMirrors(b, stockId, {}) && Accounted(b.m, stockId)
  }

  /** Between calls: depth is the sum of open quantities, every open order rests in the book, no two
      resting orders of different users match, and the accounts are in order. */
  ghost predicate InOrder(b: Book, stockId: nat) {
    Settled(b, stockId) && IsUncrossed(b)
  }

  /** Within a call: the same, but for the incoming order, which is open and in no queue. */
  ghost predicate Underway(b: Book, stockId: nat, o: Order) {
    && DepthOk(b) && NoStops(b) && BookMirrors(b, stockId, {o.id}) && Accounted(b.m, stockId)
    && Arriving(b, o) && Resting(b.m, stockId, o) && !Look(b.m.progress, o).isClosed
  }

  // -------------------------------------------------------------------------
  // A fill of two resting orders
  // -------------------------------------------------------------------------

  lemma RestingKnown(m: Models, stockId: nat, x: Order)
    requires Accounted(m, stockId) && Resting(m, stockId, x)
    ensures Known(m, x) && x.userId in m.users && Synced(m, x) && OrderOk(m, x) && x.id in m.stored
  {
    assert OrderOk(m, x);
  }

  lemma SyncedBidSafe(m: Models, stockId: nat, bid: Order)
    requires Accounted(m, stockId) && Resting(m, stockId, bid)
    ensures !Apart(m, bid)
  {
    RestingKnown(m, stockId, bid);
  }

  /** Two resting open orders of different users always trade: a limit bid can pay. */
  lemma RestingTrade(m: Models, stockId: nat, a: Order, b: Order, price: nat, qty: nat)
    requires Accounted(m, stockId) && Resting(m, stockId, a) && Resting(m, stockId, b) && Small(m)
    requires a.id.side == AskSide && b.id.side == BidSide && a.userId != b.userId && price <= b.price
    requires !Look(m.progress, a).isClosed && !Look(m.progress, b).isClosed
    requires 0 < qty <= Unfulfilled(b, Look(m.progress, b))
    ensures Accounts.Fill(m, a, b, price, qty, PLENTY).traded
    ensures UsersKnown(m, a, b) && CanPay(m, b, price, qty) && PLENTY >= Accounts.WritesNeeded(m, a, b, price, qty)
  {
    RestingKnown(m, stockId, a);
    RestingKnown(m, stockId, b);
    assert Booked(m) && m.users[b.userId].cash < TWO_63;
    InWordsAt(m, b.userId);
    assert b.id in m.deposits;
    hide Booked, Known, OrderOk, Synced, Accounts.WritesNeeded, Unit, Resting, Accounted;
    BidShare(m, b, qty);
    PriceWithinReserve(b.price, price, qty);
    LimitBid(m, stockId, b);
    WritesBound(m, a, b, price, qty);
    TradesIff(m, a, b, price, qty, PLENTY);
  }

  lemma WritesBound(m: Models, a: Order, b: Order, price: nat, qty: nat)
    requires UsersKnown(m, a, b)
    ensures PLENTY >= Accounts.WritesNeeded(m, a, b, price, qty)
  {
    hide Accounts.AskTax, Accounts.BidTax;
  }

  lemma LimitBid(m: Models, stockId: nat, b: Order)
    requires Resting(m, stockId, b) && b.id.side == BidSide
    ensures b.oType == Limit
  {
  }

  /** What is left of objects and rows after a fill of two resting orders of the stock. */
  lemma FillKeepsSynced(m: Models, stockId: nat, a: Order, b: Order, price: nat, qty: nat)
    requires Accounted(m, stockId) && Resting(m, stockId, a) && Resting(m, stockId, b) && a.id != b.id
    requires a.userId != b.userId
    requires !Look(m.progress, a).isClosed && !Look(m.progress, b).isClosed
             ==> Accounts.Fill(m, a, b, price, qty, PLENTY).traded
    ensures var m' := Accounts.Fill(m, a, b, price, qty, PLENTY).m; AllSynced(m', stockId) && m'.orders == m.orders
  {
    hide Accounts.Fill, Accounted, Resting, Booked, OrderOk, Known;
    RestingKnown(m, stockId, a);
    RestingKnown(m, stockId, b);
    AccountedIs(m, stockId);
    if Accounts.Fill(m, a, b, price, qty, PLENTY).traded {
      TradeSynced(m, stockId, a, b, price, qty);
    } else {
      ClosedAnswer(m, a, b, price, qty, PLENTY);
    }
  }

  lemma TradeSynced(m: Models, stockId: nat, a: Order, b: Order, price: nat, qty: nat)
    requires AllSynced(m, stockId) && a.id != b.id && Synced(m, a) && Synced(m, b) && a.id in m.stored && b.id in m.stored
    requires Accounts.Fill(m, a, b, price, qty, PLENTY).traded
    ensures var m' := Accounts.Fill(m, a, b, price, qty, PLENTY).m; AllSynced(m', stockId) && m'.orders == m.orders
  {
    hide Accounts.Fill, Accounts.TradeRows, Accounts.CashLeft, Accounts.Portion, Accounts.AskTax, Accounts.BidTax, FilledBy, Synced;
    var m' := Accounts.Fill(m, a, b, price, qty, PLENTY).m;
    TradeShape(m, a, b, price, qty, PLENTY);
    forall x | x in m'.orders && x.stockId == stockId ensures Synced(m', x) {
      assert Synced(m, x);
      BothSynced(m, m', a, b, FilledBy(a, Look(m.progress, a), qty), FilledBy(b, Look(m.progress, b), qty), x);
    }
  }

  lemma BothSynced(m: Models, m': Models, a: Order, b: Order, ap: Progress, bp: Progress, x: Order)
    requires Synced(m, a) && Synced(m, b) && Synced(m, x) && m'.entries == m.entries && m'.deposits == m.deposits
    requires !Look(m.progress, a).isClosed && !Look(m.progress, b).isClosed
    requires m'.progress == m.progress[a.id := ap][b.id := bp] && m'.stored == m.stored[a.id := ap][b.id := bp]
    ensures Synced(m', x)
  {
  }

  lemma TermsLegal(m: Models, ask: Order, bid: Order, stockId: nat, current: nat)
    requires Accounted(m, stockId) && Resting(m, stockId, ask) && Resting(m, stockId, bid)
    requires ask.id.side == AskSide && bid.id.side == BidSide && IsOrderMatching(ask, bid)
    ensures var price, qty := TradePrice(ask, bid, current), TradeQty(ask, Look(m.progress, ask), bid, Look(m.progress, bid));
            && Legal(m, Accounts.FillOp(ask, bid, price, qty, PLENTY)) && price <= bid.price
            && (!Look(m.progress, ask).isClosed && !Look(m.progress, bid).isClosed ==> qty > 0)
  {
    RestingKnown(m, stockId, ask);
    RestingKnown(m, stockId, bid);
    var ap, bp := Look(m.progress, ask), Look(m.progress, bid);
    hide Booked, Known, Synced, Foreign, Unit;
    if ap.fulfilled < ask.quantity && bp.fulfilled < bid.quantity {
      LimitProtection(ask, ap, bid, bp, current);
    }
    LimitBid(m, stockId, bid);
    MarketAskPrice(ask, bid, current);
  }

  lemma MarketAskPrice(ask: Order, bid: Order, current: nat)
    requires bid.oType == Limit && IsOrderMatching(ask, bid)
    ensures TradePrice(ask, bid, current) <= bid.price
  {
  }

  /** Filling two resting orders of different users is legal, keeps the accounts in order, and trades
      whenever both are open. */
  lemma RestingFill(m: Models, stockId: nat, ask: Order, bid: Order, current: nat)
    requires Accounted(m, stockId) && Resting(m, stockId, ask) && Resting(m, stockId, bid) && Small(m)
    requires ask.id.side == AskSide && bid.id.side == BidSide && ask.userId != bid.userId && IsOrderMatching(ask, bid)
    ensures var price, qty := TradePrice(ask, bid, current), TradeQty(ask, Look(m.progress, ask), bid, Look(m.progress, bid));
            var r := Accounts.Fill(m, ask, bid, price, qty, PLENTY);
            && Legal(m, Accounts.FillOp(ask, bid, price, qty, PLENTY)) && UsersKnown(m, ask, bid)
            && Accounted(r.m, stockId) && r.m.orders == m.orders
            && (!Look(m.progress, ask).isClosed && !Look(m.progress, bid).isClosed
                ==> r.traded && CanPay(m, bid, price, qty) && PLENTY >= Accounts.WritesNeeded(m, ask, bid, price, qty))
  {
    var price, qty := TradePrice(ask, bid, current), TradeQty(ask, Look(m.progress, ask), bid, Look(m.progress, bid));
    TermsLegal(m, ask, bid, stockId, current);
    RestingKnown(m, stockId, ask);
    RestingKnown(m, stockId, bid);
    SyncedBidSafe(m, stockId, bid);
    assert Booked(m);
    assert qty <= Unfulfilled(bid, Look(m.progress, bid));
    hide Accounted, TradePrice, Known, Resting, Accounts.Fill, Legal, TradeQty, CanPay, Accounts.WritesNeeded, Synced,
         OrderOk, IsOrderMatching, Booked;
    if !Look(m.progress, ask).isClosed && !Look(m.progress, bid).isClosed {
      RestingTrade(m, stockId, ask, bid, price, qty);
    }
    FillKeepsSynced(m, stockId, ask, bid, price, qty);
    FillBookedIff(m, ask, bid, price, qty, PLENTY);
    BothKept(Accounts.Fill(m, ask, bid, price, qty, PLENTY).m, stockId);
  }

  lemma BothKept(m: Models, stockId: nat)
    requires Booked(m) && AllSynced(m, stockId)
    ensures Accounted(m, stockId)
  {
  }

  // -------------------------------------------------------------------------
  // One turn
  // -------------------------------------------------------------------------

  /** The next turn's fill, as an operation on the accounts. */
  function NextOp(b: Book, o: Order): Accounts.Op
    requires HasMatch(b, o)
  {
    var (ask, bid) := NextPair(b, o);
    Accounts.FillOp(ask, bid, TradePrice(ask, bid, CurrentPrice(b.m, ask.stockId)),
                    TradeQty(ask, Look(b.m.progress, ask), bid, Look(b.m.progress, bid)), PLENTY)
  }

  lemma NextFillIs(b: Book, o: Order)
    requires HasMatch(b, o)
    ensures var op := NextOp(b, o);
            && NextFill(b, o, RealFill()) == Accounts.Fill(b.m, op.ask, op.bid, op.price, op.qty, op.budget)
            && Accounts.Do(b.m, op) == NextFill(b, o, RealFill()).m && NextPrice(b, o) == op.price && NextQty(b, o) == op.qty
            && (op.ask, op.bid) == NextPair(b, o) && op.FillOp?
  {
    hide TopMatch, Accounts.Fill;
  }

  /** The counter-order the matcher picks: resting, another user's, on the other side, matching. */
  lemma BestCounter(b: Book, stockId: nat, o: Order)
    requires Underway(b, stockId, o) && HasMatch(b, o)
    ensures var top := TopMatch(b, o).0.value;
            && top.id.side == Opposite(o.id.side) && top.userId != o.userId && Matches(o, top)
            && Resting(b.m, stockId, top)
  {
    TopIsCounter(b, o);
    TopMatchCorrect(b, o);
    hide TopMatch, DepthOk, Accounted, Arriving, Matches;
  }

  lemma NextFillGood(b: Book, stockId: nat, o: Order)
    requires Underway(b, stockId, o) && HasMatch(b, o) && Small(b.m)
    ensures var r := NextFill(b, o, RealFill());
            && Legal(b.m, NextOp(b, o)) && r.m == Accounts.Do(b.m, NextOp(b, o)) && r.m.orders == b.m.orders
            && Accounted(r.m, stockId) && NextKnown(b, o)
            && (Look(b.m.progress, TopMatch(b, o).0.value).isClosed || r.traded)
  {
    var top := TopMatch(b, o).0.value;
    BestCounter(b, stockId, o);
    NextFillIs(b, o);
    hide TopMatch, DepthOk, BookMirrors, Accounted, Accounts.Fill, Arriving, Resting, IsOrderMatching, Legal, Known,
         TradePrice, TradeQty, Unfulfilled, CanPay, Accounts.WritesNeeded, NextFill, NextPrice, NextQty, NoStops, Small;
    var (ask, bid) := NextPair(b, o);
    RestingFill(b.m, stockId, ask, bid, CurrentPrice(b.m, ask.stockId));
  }

  /** So a turn keeps the depth. */
  lemma TurnGood(b: Book, stockId: nat, o: Order)
    requires Underway(b, stockId, o) && HasMatch(b, o) && Small(b.m)
    ensures var f, r := RealFill(), PlayRound(b, o, RealFill());
            && HonestTurn(b, o, f) && KeepsDepth(b, o, f)
            && DepthOk(r.b) && NoStops(r.b) && Arriving(r.b, o)
            && r.done == Look(r.b.m.progress, o).isClosed && (r.done || r.topDone)
  {
    hide TopMatch, DepthOk, Sound, BookMirrors, Arriving, Resting, NoStops, Legal, NextOp, PlayRound, KeepsDepth, HonestTurn, NextKnown,
         NextFill, AllSynced;
    SoundOf(b);
    NextFillGood(b, stockId, o);
    NextHonest(b, o, AlwaysPlenty());
    FillKeeps(b, stockId, o);
    TurnKeepsDepthIff(b, o, RealFill());
    TurnKeepsArriving(b, o, RealFill());
    TurnKeepsNoStops(b, o, RealFill());
  }

  lemma FillKeeps(b: Book, stockId: nat, o: Order)
    requires Underway(b, stockId, o) && HasMatch(b, o) && HonestTurn(b, o, RealFill())
    requires Look(b.m.progress, TopMatch(b, o).0.value).isClosed || NextFill(b, o, RealFill()).traded
    ensures KeepsDepth(b, o, RealFill())
    ensures NextFill(b, o, RealFill()).traded || TopStatus(b, o, RealFill()) != Undone
  {
    hide TopMatch, NextFill, DepthOk, BookMirrors, Arriving, HonestTurn, Accounted, RealFill, NextQty, NextPrice, TopStatus, OwnStatus, Answered;
    BestCounter(b, stockId, o);
    HonestNext(b, o, RealFill());
    ClosedTop(b, o, RealFill());
    NoStopsKeep(b, o, RealFill());
  }

  lemma ClosedTop(b: Book, o: Order, f: Desk)
    requires HasMatch(b, o) && HonestTurn(b, o, f) && TopMatch(b, o).0.value.id.side == Opposite(o.id.side)
    ensures Look(b.m.progress, TopMatch(b, o).0.value).isClosed && !NextFill(b, o, f).traded ==> TopStatus(b, o, f) == AlreadyClosed
  {
    HonestNext(b, o, f);
    hide TopMatch, NextFill, HonestTurn, NextQty;
  }

  lemma NoStopsKeep(b: Book, o: Order, f: Desk)
    requires NoStops(b) && HasMatch(b, o)
    ensures NextFill(b, o, f).traded || TopStatus(b, o, f) != Undone ==> KeepsDepth(b, o, f)
  {
    hide TopMatch, NextFill, NextPrice, TopStatus;
    assert b.Of(Opposite(o.id.side)).stops == [];
  }

  /** Across a turn only the best order of the counter side may leave, and only when closed. */
  lemma CounterKept(b: Book, o: Order, f: Desk, x: Order)
    requires DepthOk(b) && HasMatch(b, o) && HonestTurn(b, o, f) && NoStops(b)
    ensures var r, s := PlayRound(b, o, f), Opposite(o.id.side);
            && (x in r.b.Live(s) ==> x in b.Live(s))
            && (x in b.Live(s) && !Look(r.b.m.progress, x).isClosed ==> x in r.b.Live(s))
            && r.b.Live(o.id.side) == b.Live(o.id.side)
  {
    var r, s := PlayRound(b, o, f), Opposite(o.id.side);
    ValidOf(b);
    CounterPopped(b, o, f);
    TurnKeepsNoStops(b, o, f);
    assert b.Of(s).stops == [] && r.b.Of(s).stops == [];
    LivePopulation(b.Of(s));
    LivePopulation(r.b.Of(s));
    RoundConserves(b, o, f);
    hide PlayRound, TopMatch, Population, DepthOk, Valid, NoStops;
    assert x in r.b.Live(s) <==> x in multiset(r.b.Live(s));
    assert x in b.Live(s) <==> x in multiset(b.Live(s));
    assert x in r.popped <==> x in multiset(r.popped);
  }

  lemma CounterPopped(b: Book, o: Order, f: Desk)
    requires DepthOk(b) && HasMatch(b, o) && HonestTurn(b, o, f) && NoStops(b)
    ensures var r := PlayRound(b, o, f);
            && (forall x :: x in r.popped ==> Look(r.b.m.progress, x).isClosed)
            && r.b.Live(o.id.side) == b.Live(o.id.side)
  {
    SoundOf(b);
    var r := PlayRound(b, o, f);
    ValidOf(b);
    RoundHalves(b, o, f);
    assert b.Of(Opposite(o.id.side)).stops == [] && b.Of(o.id.side).stops == [];
    if r.topDone {
      PopsFinishedIff(b, o, f);
      FinishedIsClosed(b, o, f);
    }
    hide PlayRound, TopMatch, DepthOk, Valid;
  }

  ghost predicate OnlyClosedLeave(b: Book, b': Book, s: Side) {
    forall x :: (x in b'.Live(s) ==> x in b.Live(s))
                && (x in b.Live(s) && !Look(b'.m.progress, x).isClosed ==> x in b'.Live(s))
  }

  /** Queues that only lost closed orders still mirror the accounts. */
  lemma MirrorsKept(b: Book, b': Book, stockId: nat, skip: set<OrderId>)
    requires BookMirrors(b, stockId, skip) && b'.m.orders == b.m.orders
    requires OnlyClosedLeave(b, b', AskSide) && OnlyClosedLeave(b, b', BidSide)
    requires AllAdvance(b.m, b'.m)
    ensures BookMirrors(b', stockId, skip)
  {
    forall x | x in b'.ask.live || x in b'.bid.live ensures Resting(b'.m, stockId, x) {
      assert x in b'.Live(AskSide) || x in b'.Live(BidSide);
      assert x in b.Live(AskSide) || x in b.Live(BidSide);
      assert Resting(b.m, stockId, x);
    }
    forall x | x in b'.m.orders && x.stockId == stockId && x.id !in skip && !Look(b'.m.progress, x).isClosed
      ensures x in b'.Live(x.id.side)
    {
      assert x.id in b.m.progress ==> Advances(b.m.progress[x.id], b'.m.progress[x.id]);
      assert !Look(b.m.progress, x).isClosed;
      assert x in b.Live(x.id.side);
    }
  }

  lemma SideKept(b: Book, o: Order, f: Desk, t: Side)
    requires DepthOk(b) && HasMatch(b, o) && HonestTurn(b, o, f) && NoStops(b)
    ensures OnlyClosedLeave(b, PlayRound(b, o, f).b, t)
  {
    hide PlayRound, HasMatch, DepthOk, HonestTurn, NoStops;
    if t == Opposite(o.id.side) {
      forall x { CounterKept(b, o, f, x); }
    } else {
      CounterPopped(b, o, f);
    }
  }

  /** Without dormant stops a turn does to the accounts what its fill does. */
  lemma TurnModels(b: Book, o: Order, f: Desk)
    requires NoStops(b) && HasMatch(b, o)
    ensures PlayRound(b, o, f).b.m == NextFill(b, o, f).m
  {
    RoundHalves(b, o, f);
    assert b.Of(AskSide).stops == [] && b.Of(BidSide).stops == [];
    NoWakes(b, NextFill(b, o, f).m, NextPrice(b, o), f);
    hide PlayRound, NextFill, TopMatch;
  }

  lemma TurnAdvances(b: Book, stockId: nat, o: Order)
    requires Underway(b, stockId, o) && HasMatch(b, o)
    ensures AllAdvance(b.m, PlayRound(b, o, RealFill()).b.m)
  {
    NextFillIs(b, o);
    NextIdsDiffer(b, stockId, o);
    RoundHalves(b, o, RealFill());
    TurnModels(b, o, RealFill());
    hide PlayRound, TopMatch, NextFill, NextPair, Accounts.Fill, Accounts.Do, AfterFill, AfterPop, AllAdvance, NextOp, Underway;
    var op := NextOp(b, o);
    FillAdvances(b.m, op.ask, op.bid, op.price, op.qty, op.budget);
  }

  lemma TurnMirrors(b: Book, stockId: nat, o: Order)
    requires Underway(b, stockId, o) && HasMatch(b, o) && Small(b.m)
    ensures var r := PlayRound(b, o, RealFill());
            BookMirrors(r.b, stockId, {o.id}) && Resting(r.b.m, stockId, o)
  {
    hide PlayRound, TopMatch, HasMatch, DepthOk, Arriving, NextFill, Accounted, Legal, KeepsDepth, HonestTurn, AnswerKeeps,
         NextPair, AfterFill, AfterPop, NoStops, NextKnown, BookMirrors, AllAdvance, NextOp, OnlyClosedLeave;
    NextFillGood(b, stockId, o);
    TurnGood(b, stockId, o);
    RoundHalves(b, o, RealFill());
    SideKept(b, o, RealFill(), AskSide);
    SideKept(b, o, RealFill(), BidSide);
    TurnAdvances(b, stockId, o);
    TurnModels(b, o, RealFill());
    MirrorsKept(b, PlayRound(b, o, RealFill()).b, stockId, {o.id});
  }

  lemma NextIdsDiffer(b: Book, stockId: nat, o: Order)
    requires Underway(b, stockId, o) && HasMatch(b, o)
    ensures NextOp(b, o).ask.id != NextOp(b, o).bid.id
  {
    BestCounter(b, stockId, o);
    hide TopMatch, DepthOk, TradePrice, TradeQty;
  }

  lemma SkipNoMore(b: Book, stockId: nat, o: Order)
    requires BookMirrors(b, stockId, {o.id}) && Booked(b.m) && o in b.m.orders
    requires Look(b.m.progress, o).isClosed || o in b.Live(o.id.side)
    ensures BookMirrors(b, stockId, {})
  {
    forall x | x in b.m.orders && x.stockId == stockId && x.id !in {} && !Look(b.m.progress, x).isClosed
      ensures x in b.Live(x.id.side)
    {
      if x.id == o.id { SameId(b.m, x, o); }
    }
  }

  /** A turn settles the incoming order, or leaves everything ready for the next turn. */
  lemma RoundGoesOn(b: Book, stockId: nat, o: Order)
    requires Underway(b, stockId, o) && HasMatch(b, o) && Small(b.m)
    ensures var r := PlayRound(b, o, RealFill());
            && r.b.m == Accounts.Do(b.m, NextOp(b, o)) && Legal(b.m, NextOp(b, o))
            && (r.done || r.topDone)
            && if r.done then Settled(r.b, stockId) else Underway(r.b, stockId, o)
  {
    hide PlayRound, TopMatch, DepthOk, Arriving, HonestTurn, NextFill, NextOp, Legal, BookMirrors, NoStops, KeepsDepth,
         AnswerKeeps, NextKnown, Booked, AllSynced, AfterFill, AfterPop;
    var r := PlayRound(b, o, RealFill());
    NextFillGood(b, stockId, o);
    RoundHalves(b, o, RealFill());
    TurnModels(b, o, RealFill());
    TurnMirrors(b, stockId, o);
    TurnGood(b, stockId, o);
    if r.done {
      SkipNoMore(r.b, stockId, o);
    }
  }

  lemma RestSettles(b: Book, stockId: nat, o: Order)
    requires Underway(b, stockId, o) && !HasMatch(b, o)
    ensures Settled(Rest(b, o), stockId) && Rest(b, o).m == b.m
  {
    var r, us, s := Rest(b, o), o.id.side, Opposite(o.id.side);
    ValidOf(b);
    RestKeepsDepth(b, o);
    RestQueues(b, o);
    RestHalves(b, o);
    hide Rest, DepthOk, Valid, Accounted, Arriving, HasMatch;
    assert NoStops(r);
    hide NoStops;
    RestMirrors(b, r, stockId, o);
    AccountedIs(b.m, stockId);
    SkipNoMore(r, stockId, o);
  }

  lemma AccountedIs(m: Models, stockId: nat)
    requires Accounted(m, stockId)
    ensures Booked(m) && AllSynced(m, stockId)
  {
  }

  /** The order joins its queue; the counter queue keeps its orders. */
  lemma RestMirrors(b: Book, r: Book, stockId: nat, o: Order)
    requires BookMirrors(b, stockId, {o.id}) && Resting(b.m, stockId, o) && r.m == b.m
    requires multiset(r.Live(o.id.side)) == multiset([o] + b.Live(o.id.side))
    requires multiset(r.Live(Opposite(o.id.side))) == multiset(b.Live(Opposite(o.id.side)))
    ensures BookMirrors(r, stockId, {o.id}) && o in r.Live(o.id.side)
  {
    var us, s := o.id.side, Opposite(o.id.side);
    assert multiset([o] + b.Live(us)) == multiset([o]) + multiset(b.Live(us));
    Seqs.SameMembers(r.Live(us), [o], b.Live(us));
    Seqs.SameMembers(r.Live(s), b.Live(s), []);
    forall x | x in r.ask.live || x in r.bid.live ensures Resting(r.m, stockId, x) {
      assert x in r.Live(s) || x in r.Live(us);
    }
  }

  /** The call that processes a placed order leaves everything settled, and what it did to the
      accounts is a run of legal operations. */
  lemma {:induction false} ProcessSettles(b: Book, stockId: nat, o: Order) returns (ops: seq<Accounts.Op>)
    requires Underway(b, stockId, o) && SmallCall(b, o)
    ensures Settled(Process(b, o, RealFill()).b, stockId)
    ensures LegalOps(b.m, ops) && Accounts.RunOps(b.m, ops) == Process(b, o, RealFill()).b.m
    decreases |b.Live(Opposite(o.id.side))| + |b.Of(Opposite(o.id.side)).stops|
  {
    hide PlayRound, Rest, Underway, Settled, Accounts.Do, NextOp, Legal;
    if !HasMatch(b, o) {
      RestSettles(b, stockId, o);
      ops := [];
    } else {
      var r := PlayRound(b, o, RealFill());
      RoundGoesOn(b, stockId, o);
      ops := [];
      if !r.done {
        ops := ProcessSettles(r.b, stockId, o);
      }
      ops := FirstOp(b.m, NextOp(b, o), ops);
    }
  }

  lemma FirstOp(m: Models, op: Accounts.Op, ops: seq<Accounts.Op>) returns (all: seq<Accounts.Op>)
    requires Legal(m, op) && LegalOps(Accounts.Do(m, op), ops)
    ensures LegalOps(m, all) && Accounts.RunOps(m, all) == Accounts.RunOps(Accounts.Do(m, op), ops)
  {
    all := [op] + ops;
    assert all[1..] == ops;
  }

  // -------------------------------------------------------------------------
  // Placing
  // -------------------------------------------------------------------------

  lemma PlacedShape(m: Models, o: Order, fee: nat)
    requires Place(m, o, fee).error.None?
    ensures var m' := Place(m, o, fee).m;
            && m'.orders == m.orders + [o] && m'.progress == m.progress[o.id := Progress(0, false)]
            && m'.stored == m.stored[o.id := Progress(0, false)] && m'.entries == m.entries[o.id := Shared]
            && o.quantity > 0 && m.deposits.Keys <= m'.deposits.Keys && Covered(m', o)
  {
    hide Accounts.AskPlaced, Accounts.PriceError, Accounts.OrderPrice, Accounts.ActiveLends, Accounts.Available,
         Accounts.ShortSellQty, Wrap64;
    if o.id.side == AskSide {
      AskPlacedIs(m, o, fee, Accounts.ShortSellQty(m, o));
    }
  }

  lemma BookedHasObject(m: Models, x: Order)
    requires Booked(m) && x in m.orders
    ensures x.id in m.progress
  {
    assert OrderOk(m, x);
  }

  lemma PlacedAccounts(m: Models, stockId: nat, o: Order, fee: nat)
    requires Accounted(m, stockId) && o.id !in m.progress && Place(m, o, fee).error.None?
    ensures Accounted(Place(m, o, fee).m, stockId)
  {
    hide Accounts.PlaceAsk, Accounts.PlaceBid, Booked, OrderOk;
    var m' := Place(m, o, fee).m;
    PlacedShape(m, o, fee);
    if o.id.side == AskSide {
      PlaceAskBooked(m, o, fee, PLENTY);
    } else {
      PlaceBidBooked(m, o, fee, PLENTY);
    }
    forall x | x in m.orders ensures x.id in m.progress { BookedHasObject(m, x); }
    forall x | x in m'.orders && x.stockId == stockId ensures Synced(m', x) {
      if x in m.orders {
        assert Synced(m, x);
      }
    }
  }

  lemma RefusedKeeps(b: Book, stockId: nat, o: Order, fee: nat)
    requires Place(b.m, o, fee).error.Some?
    ensures Place(b.m, o, fee).m == b.m
  {
    hide Accounts.AskError, Accounts.BidError;
  }

  /** Before an order is placed nothing of it is in the book. */
  lemma PlacedIsUnderway(b: Book, stockId: nat, o: Order, fee: nat)
    requires InOrder(b, stockId) && Usual(b, stockId, Arrive(o, fee)) && Place(b.m, o, fee).error.None?
    ensures Underway(b.(m := Place(b.m, o, fee).m), stockId, o)
  {
    hide Place, SmallCall, Accounted, BookMirrors, NoStops, DepthOk, Arriving, IsUncrossed;
    PlacedShape(b.m, o, fee);
    PlacedAccounts(b.m, stockId, o, fee);
    PlacedInBook(b, b.(m := Place(b.m, o, fee).m), stockId, o);
  }

  lemma PlacedInBook(b: Book, b': Book, stockId: nat, o: Order)
    requires Settled(b, stockId) && b' == b.(m := b'.m) && Accounted(b'.m, stockId)
    requires b'.m.orders == b.m.orders + [o] && b'.m.progress == b.m.progress[o.id := Progress(0, false)]
    requires o.id !in b.m.progress && o.oType != StopLoss && o.quantity > 0 && Resting(b'.m, stockId, o)
    ensures Underway(b', stockId, o)
  {
    hide Accounted, BookMirrors, NoStops, DepthOk, Arriving, Resting;
    BookIds(b, stockId);
    PlacedDepth(b, b', o);
    PlacedMirrors(b, b', stockId, o);
    PlacedNoStops(b, b');
  }

  lemma BookIds(b: Book, stockId: nat)
    requires Settled(b, stockId)
    ensures forall s: Side, x :: x in Population(b.Of(s)) ==> x.id in b.m.progress
  {
    RestingIds(b, stockId);
  }

  lemma PlacedNoStops(b: Book, b': Book)
    requires NoStops(b) && b' == b.(m := b'.m)
    ensures NoStops(b')
  {
    forall s: Side ensures b'.Of(s).stops == [] { assert b.Of(s).stops == []; }
  }

  lemma PlacedMirrors(b: Book, b': Book, stockId: nat, o: Order)
    requires BookMirrors(b, stockId, {}) && b' == b.(m := b'.m)
    requires b'.m.orders == b.m.orders + [o] && b'.m.progress == b.m.progress[o.id := Progress(0, false)]
    ensures BookMirrors(b', stockId, {o.id})
  {
    forall x | x in b'.ask.live || x in b'.bid.live ensures Resting(b'.m, stockId, x) {
      assert Resting(b.m, stockId, x);
    }
    forall x | x in b'.m.orders && x.stockId == stockId && x.id !in {o.id} && !Look(b'.m.progress, x).isClosed
      ensures x in b'.Live(x.id.side)
    {
      assert x in b.m.orders && !Look(b.m.progress, x).isClosed;
    }
  }

  /** Every order in the book has an object. */
  lemma RestingIds(b: Book, stockId: nat)
    requires Settled(b, stockId)
    ensures forall s: Side, x :: x in Population(b.Of(s)) ==> x.id in b.m.progress && Resting(b.m, stockId, x)
  {
    assert Booked(b.m);
    forall s: Side, x | x in Population(b.Of(s)) ensures x.id in b.m.progress && Resting(b.m, stockId, x) {
      assert b.Of(s).stops == [];
      LivePopulation(b.Of(s));
      assert x in multiset(b.Of(s).live);
      assert Resting(b.m, stockId, x);
      assert OrderOk(b.m, x);
    }
  }

  lemma PlacedDepth(b: Book, b': Book, o: Order)
    requires DepthOk(b) && b' == b.(m := b'.m) && b'.m.progress == b.m.progress[o.id := Progress(0, false)]
    requires o.id !in b.m.progress && o.oType != StopLoss && o.quantity > 0
    requires forall s: Side, x :: x in Population(b.Of(s)) ==> x.id in b.m.progress
    ensures DepthOk(b') && Arriving(b', o) && !Look(b'.m.progress, o).isClosed
  {
    forall s: Side ensures ValidHalf(s, b'.Of(s)) && DepthHalf(LevelOf(b'.depth, s), b'.Of(s), b'.m.progress) {
      DepthOkAt(b, s);
      ProgressElsewhere(LevelOf(b.depth, s), b.Of(s), b.m.progress, o.id, Progress(0, false));
    }
    assert b'.Of(o.id.side) == b.Of(o.id.side);
  }

  /** An accepted order, once processed, leaves everything in order. */
  lemma ArriveInOrder(b: Book, stockId: nat, o: Order, fee: nat) returns (ops: seq<Accounts.Op>)
    requires InOrder(b, stockId) && Usual(b, stockId, Arrive(o, fee)) && Place(b.m, o, fee).error.None?
    ensures InOrder(Step(b, Arrive(o, fee)), stockId)
    ensures LegalOps(b.m, ops) && Accounts.RunOps(b.m, ops) == Step(b, Arrive(o, fee)).m
  {
    var b' := b.(m := Place(b.m, o, fee).m);
    PlacedIsUnderway(b, stockId, o, fee);
    ops := ProcessSettles(b', stockId, o);
    var r := Process(b', o, RealFill()).b;
    assert IsUncrossed(b') by {
      forall ask, bid ensures !Crossing(b', ask, bid) { assert !Crossing(b, ask, bid); }
    }
    ValidOf(b');
    assert NoStops(b') && NoStops(r);
    hide Process, DepthOk, Accounted, Valid, BookMirrors, IsUncrossed, SmallCall;
    forall s: Side ensures r.Of(s).stops == b'.Of(s).stops {
      assert r.Of(s).stops == [] && b'.Of(s).stops == [];
    }
    StaysUncrossed(b', o, RealFill());
    var op := if o.id.side == AskSide then Accounts.PlaceAskOp(o, fee, PLENTY) else Accounts.PlaceBidOp(o, fee, PLENTY);
    assert Accounts.Do(b.m, op) == b'.m;
    ops := FirstOp(b.m, op, ops);
  }

  // -------------------------------------------------------------------------
  // Cancelling, and everything else
  // -------------------------------------------------------------------------

  /** The accounts changed, but not the queue objects of this book. */
  lemma SameObjectsInOrder(b: Book, m': Models, stockId: nat)
    requires InOrder(b, stockId) && Booked(m') && AllSynced(m', stockId)
    requires forall x :: x in b.m.orders ==> x in m'.orders
    requires forall x :: x in m'.orders && x.stockId == stockId ==> x in b.m.orders
    requires forall x :: x in b.m.orders && x.stockId == stockId ==> Look(m'.progress, x) == Look(b.m.progress, x)
    ensures InOrder(b.(m := m'), stockId)
  {
    hide Booked, AllSynced, DepthOk, NoStops;
    SameObjectsDepth(b, m', stockId);
    SameQueues(b, b.(m := m'), stockId);
    PlacedNoStops(b, b.(m := m'));
  }

  lemma SameObjectsDepth(b: Book, m': Models, stockId: nat)
    requires Settled(b, stockId)
    requires forall x :: x in b.m.orders && x.stockId == stockId ==> Look(m'.progress, x) == Look(b.m.progress, x)
    ensures DepthOk(b.(m := m'))
  {
    var r := b.(m := m');
    RestingIds(b, stockId);
    forall s: Side, x | x in Population(b.Of(s)) ensures Look(m'.progress, x) == Look(b.m.progress, x) {
      assert Resting(b.m, stockId, x);
    }
    assert forall s: Side :: b.Of(s).stops == [];
    hide Booked, AllSynced, BookMirrors, Resting, Population;
    forall s: Side ensures ValidHalf(s, r.Of(s)) && DepthHalf(LevelOf(r.depth, s), r.Of(s), m'.progress) {
      DepthOkAt(b, s);
      SameProgressHalf(LevelOf(b.depth, s), b.Of(s), b.m.progress, m'.progress);
    }
  }

  lemma SameProgressHalf(l: Level, h: Half, pm: ProgressMap, pm': ProgressMap)
    requires DepthHalf(l, h, pm) && h.stops == [] && forall x :: x in Population(h) ==> Look(pm', x) == Look(pm, x)
    ensures DepthHalf(l, h, pm')
  {
    forall x | x in h.live ensures Look(pm', x) == Look(pm, x) { LiveInPopulation(h, x); }
    hide Population, Agrees;
    AgreesFrame(l, h.live, pm, pm');
  }

  lemma SameQueues(b: Book, r: Book, stockId: nat)
    requires BookMirrors(b, stockId, {}) && IsUncrossed(b) && r.ask == b.ask && r.bid == b.bid
    requires forall x :: x in b.m.orders ==> x in r.m.orders
    requires forall x :: x in r.m.orders && x.stockId == stockId ==> x in b.m.orders
    requires forall x :: x in b.m.orders && x.stockId == stockId && Look(b.m.progress, x).isClosed
                         ==> Look(r.m.progress, x).isClosed
    ensures BookMirrors(r, stockId, {}) && IsUncrossed(r)
  {
    forall ask, bid ensures !Crossing(r, ask, bid) {
      assert !Crossing(b, ask, bid);
    }
    forall x | x in r.ask.live || x in r.bid.live ensures Resting(r.m, stockId, x) {
      assert Resting(b.m, stockId, x);
    }
  }

  /** What an accepted cancellation of a synced order does. */
  lemma WithdrawnIs(m: Models, stockId: nat, u: nat, o: Order)
    requires Accounted(m, stockId) && o.stockId == stockId && Accounts.Cancel(m, u, o, PLENTY).error.None?
    requires Accounts.Findable(m, o) ==> o in m.orders
    ensures var m' := Accounts.Cancel(m, u, o, PLENTY).m;
            && Accounted(m', stockId) && m'.orders == m.orders && o in m.orders && !Look(m.progress, o).isClosed
            && m'.progress == m.progress[o.id := Look(m.progress, o).(isClosed := true)]
  {
    var m' := Accounts.Cancel(m, u, o, PLENTY).m;
    assert o in m.orders && Synced(m, o) && !Accounts.Seen(m, o).isClosed && o.userId in m.users;
    CancelBookedIff(m, u, o, PLENTY);
    CancelOpenShape(m, o, PLENTY);
    assert m' == Accounts.CancelOpen(m, o, PLENTY).m && EntryOf(m', o.id) == Missing;
    hide Accounts.Cancel, Accounts.CancelOpen, Booked;
    forall x | x in m'.orders && x.stockId == stockId ensures Synced(m', x) {
      assert Synced(m, x);
    }
  }

  /** A refused one only looks. */
  lemma RefusedWithdrawal(m: Models, stockId: nat, u: nat, o: Order)
    requires Accounted(m, stockId) && o.stockId == stockId && Accounts.Cancel(m, u, o, PLENTY).error.Some?
    requires Accounts.Findable(m, o) ==> o in m.orders
    ensures var m' := Accounts.Cancel(m, u, o, PLENTY).m;
            Booked(m') && AllSynced(m', stockId) && m'.orders == m.orders && m'.progress == m.progress
  {
    var m' := Accounts.Cancel(m, u, o, PLENTY).m;
    CancelBookedIff(m, u, o, PLENTY);
    hide Booked, AllSynced;
    AccountedIs(m, stockId);
    if o in m.orders {
      assert OrderOk(m, o) && (!Accounts.Seen(m, o).isClosed ==> Covered(m, o)) by {
        BookedAt(m, o);
        assert Synced(m, o);
      }
      NotOpenFails(m, u, o);
      hide Accounts.Cancel, OrderOk;
      LookedUpSynced(m, stockId, o);
    }
  }

  lemma BookedAt(m: Models, o: Order)
    requires Booked(m) && o in m.orders
    ensures OrdersOk(m) && OrderOk(m, o)
  {
  }

  lemma NotOpenFails(m: Models, u: nat, o: Order)
    requires OrderOk(m, o) && (!Accounts.Seen(m, o).isClosed ==> Covered(m, o))
    requires Accounts.Cancel(m, u, o, PLENTY).error.Some?
    ensures Accounts.Cancel(m, u, o, PLENTY).m == m || Accounts.Cancel(m, u, o, PLENTY).m == Accounts.LookedUp(m, o)
  {
    hide Accounts.LookedUp, Accounts.MarkedClosed, Accounts.TakenOut, Accounts.Released, Accounts.Seen, WellFilled, Unit, Linked;
  }

  lemma LookedUpSynced(m: Models, stockId: nat, o: Order)
    requires AllSynced(m, stockId) && o in m.orders && o.stockId == stockId
    ensures var m' := Accounts.LookedUp(m, o); AllSynced(m', stockId) && m'.orders == m.orders && m'.progress == m.progress
  {
    var m' := Accounts.LookedUp(m, o);
    assert Synced(m, o);
    forall x | x in m'.orders && x.stockId == stockId ensures Synced(m', x) {
      assert Synced(m, x);
    }
  }

  lemma WithdrawDepth(b: Book, stockId: nat, o: Order, m': Models)
    requires DepthOk(b) && o in b.Live(o.id.side) && !Look(b.m.progress, o).isClosed
    requires m'.progress == b.m.progress[o.id := Look(b.m.progress, o).(isClosed := true)]
    ensures var r := CancelInBook(b.(m := m'), o); DepthOk(r) && r.ask == b.ask && r.bid == b.bid && r.m == m'
  {
    var r := CancelInBook(b.(m := m'), o);
    var c := CancelInBook(SetProgress(b, o.id, b.Progress(o).(isClosed := true)), o);
    CancelKeepsDepth(b, o);
    DepthOkAt(b, o.id.side);
    hide DepthOk, CloseLevel;
    SameDepthOk(c, r);
  }

  /** A cancellation the accounts accept finds its order resting, and keeps everything in order. */
  lemma WithdrawInOrder(b: Book, stockId: nat, u: nat, o: Order)
    requires InOrder(b, stockId) && o.stockId == stockId && Accounts.Cancel(b.m, u, o, PLENTY).error.None?
    requires Accounts.Findable(b.m, o) ==> o in b.m.orders
    ensures InOrder(Step(b, Withdraw(u, o)), stockId)
  {
    hide Accounted, Accounts.Cancel, CancelInBook, DepthOk;
    var m' := Accounts.Cancel(b.m, u, o, PLENTY).m;
    WithdrawnIs(b.m, stockId, u, o);
    assert o in b.Live(o.id.side);
    var r := CancelInBook(b.(m := m'), o);
    assert Step(b, Withdraw(u, o)) == r;
    WithdrawDepth(b, stockId, o, m');
    hide NoStops;
    SameQueues(b, r, stockId);
    QueuesNoStops(b, r);
  }

  lemma QueuesNoStops(b: Book, r: Book)
    requires NoStops(b) && r.ask == b.ask && r.bid == b.bid
    ensures NoStops(r)
  {
    forall s: Side ensures r.Of(s).stops == [] { assert b.Of(s).stops == []; }
  }

  lemma SameDepthOk(b: Book, b': Book)
    requires DepthOk(b) && b'.ask == b.ask && b'.bid == b.bid && b'.depth == b.depth && b'.m.progress == b.m.progress
    ensures DepthOk(b')
  {
    forall s: Side ensures ValidHalf(s, b'.Of(s)) && DepthHalf(LevelOf(b'.depth, s), b'.Of(s), b'.m.progress) {
      DepthOkAt(b, s);
    }
  }

  lemma RefusedInOrder(b: Book, stockId: nat, u: nat, o: Order)
    requires InOrder(b, stockId) && o.stockId == stockId && Accounts.Cancel(b.m, u, o, PLENTY).error.Some?
    requires Accounts.Findable(b.m, o) ==> o in b.m.orders
    ensures InOrder(Step(b, Withdraw(u, o)), stockId)
  {
    RefusedWithdrawal(b.m, stockId, u, o);
    hide Accounts.Cancel, Settled, Booked, AllSynced;
    assert InOrder(b, stockId);
    hide InOrder;
    SameObjectsInOrder(b, Accounts.Cancel(b.m, u, o, PLENTY).m, stockId);
  }

  lemma OtherIdDiffers(m: Models, stockId: nat, a: Order, x: Order)
    requires Booked(m) && (Known(m, a) || Foreign(m, a)) && a.stockId != stockId
    requires x in m.orders && x.stockId == stockId
    ensures a.id != x.id
  {
    if Known(m, a) {
      var y :| y in m.orders && (a == y || a == Triggered(y));
      if y.id == x.id { SameId(m, x, y); }
    }
  }

  /** Operations on other stocks leave this stock's orders alone. */
  lemma OtherStockUntouched(m: Models, stockId: nat, op: Accounts.Op, x: Order)
    requires Booked(m) && Legal(m, op) && OtherStock(op, stockId) && x in m.orders && x.stockId == stockId
    ensures SameObjects(m, Accounts.Do(m, op), x)
  {
    hide Accounts.PlaceBid, Accounts.PlaceAsk, Accounts.Fill, Accounts.Cancel, Accounts.BuyFromExchange, Accounts.PerformMortgage,
         Accounts.SquareOff, Known, Foreign, Booked, OrdersOk, WellFilled, Linked, Unit;
    BookedAt(m, x);
    match op
    case PlaceBidOp(o, fee, budget) => BidAdds(m, o, fee, budget);
    case PlaceAskOp(o, fee, budget) => AskAdds(m, o, fee, budget);
    case FillOp(a, b, price, qty, budget) =>
      OtherIdDiffers(m, stockId, a, x);
      OtherIdDiffers(m, stockId, b, x);
      FillUntouched(m, a, b, price, qty, budget, x);
    case CancelOp(u, o, budget) =>
      if Accounts.Findable(m, o) && o !in m.orders { ForeignElsewhere(m, o, x); }
      CancelUntouched(m, u, o, budget, x);
    case BuyOp(u, s, qty, budget) => BuyLeavesOrders(m, u, s, qty, budget);
    case MortgageOp(u, s, qty, price, budget) => MortgageLeavesOrders(m, u, s, qty, price, budget);
    case SquareOffOp(i) => if i < |m.lends| { SquareOffLeavesOrders(m, i); }
    case WakeOp(o, budget) =>
      RecordedKnown(m, o);
      OtherIdDiffers(m, stockId, o, x);
      SameToItself(m, x);
  }

  lemma RecordedKnown(m: Models, o: Order)
    ensures o in m.orders ==> Known(m, o)
  {
  }

  lemma ForeignElsewhere(m: Models, o: Order, x: Order)
    requires Booked(m) && o.id !in m.stored && x in m.orders
    ensures o.id != x.id
  {
    assert OrderOk(m, x);
  }

  lemma FillUntouched(m: Models, a: Order, b: Order, price: nat, qty: nat, budget: nat, x: Order)
    requires a.id != b.id && a.id != x.id && b.id != x.id
    ensures SameObjects(m, Accounts.Fill(m, a, b, price, qty, budget).m, x)
  {
    var r := Accounts.Fill(m, a, b, price, qty, budget);
    if r.traded {
      TradeShape(m, a, b, price, qty, budget);
    } else if r.bid == Done {
      ClosedShape(m, a, b, price, qty, budget);
    } else {
      NoFill(m, a, b, price, qty, budget);
    }
    hide Accounts.Fill, Accounts.CashLeft, Accounts.TradeRows, Accounts.Refund, HalfCloses;
  }

  lemma CancelUntouched(m: Models, u: nat, o: Order, budget: nat, x: Order)
    requires OrdersOk(m) && x in m.orders && o != x && (Accounts.Findable(m, o) && o !in m.orders ==> o.id != x.id)
    ensures SameObjects(m, Accounts.Cancel(m, u, o, budget).m, x)
  {
    hide Accounts.CancelOpen, Accounts.Seen, OrdersOk, SameObjects, Accounts.LookedUp;
    SameToItself(m, x);
    if Accounts.Findable(m, o) {
      if o in m.orders && o.id == x.id { SameId(m, o, x); }
      LookedUpElsewhere(m, o, x);
      if u in m.users && o.userId == u && !Accounts.Seen(m, o).isClosed {
        CancelOpenUntouched(m, o, budget, x);
      }
    }
  }

  lemma SameToItself(m: Models, x: Order)
    ensures SameObjects(m, m, x)
  {
  }

  lemma LookedUpElsewhere(m: Models, o: Order, x: Order)
    requires o.id != x.id
    ensures SameObjects(m, Accounts.LookedUp(m, o), x)
  {
  }

  lemma CancelOpenUntouched(m: Models, o: Order, budget: nat, x: Order)
    requires o.userId in m.users && !Accounts.Seen(m, o).isClosed && o.id != x.id
    ensures SameObjects(m, Accounts.CancelOpen(m, o, budget).m, x)
  {
    CancelOpenShape(m, o, budget);
    hide Accounts.CancelOpen, Accounts.Seen;
  }

  lemma OtherStockPlaced(m: Models, stockId: nat, op: Accounts.Op, x: Order)
    requires OtherStock(op, stockId) && x in Accounts.Do(m, op).orders && x.stockId == stockId
    ensures x in m.orders
  {
    hide Accounts.PlaceBid, Accounts.PlaceAsk, Accounts.Fill, Accounts.Cancel, Accounts.BuyFromExchange, Accounts.PerformMortgage,
         Accounts.SquareOff;
    match op
    case PlaceBidOp(o, fee, budget) => BidAdds(m, o, fee, budget);
    case PlaceAskOp(o, fee, budget) => AskAdds(m, o, fee, budget);
    case FillOp(a, b, price, qty, budget) => FillKeepsTable(m, a, b, price, qty, budget);
    case CancelOp(u, o, budget) => CancelKeepsTable(m, u, o, budget);
    case BuyOp(u, s, qty, budget) => BuyLeavesOrders(m, u, s, qty, budget);
    case MortgageOp(u, s, qty, price, budget) => MortgageLeavesOrders(m, u, s, qty, price, budget);
    case SquareOffOp(i) => if i < |m.lends| { SquareOffLeavesOrders(m, i); }
    case WakeOp(o, budget) =>
  }

  /** Deposits are only added. */
  lemma DepositsStay(m: Models, op: Accounts.Op)
    ensures m.deposits.Keys <= Accounts.Do(m, op).deposits.Keys
  {
    hide Accounts.PlaceBid, Accounts.PlaceAsk, Accounts.Fill, Accounts.Cancel, Accounts.BuyFromExchange, Accounts.PerformMortgage,
         Accounts.SquareOff;
    match op
    case PlaceBidOp(o, fee, budget) => BidDepositsStay(m, o, fee, budget);
    case PlaceAskOp(o, fee, budget) => AskDepositsStay(m, o, fee, budget);
    case FillOp(a, b, price, qty, budget) => FillKeepsTable(m, a, b, price, qty, budget);
    case CancelOp(u, o, budget) => CancelKeepsTable(m, u, o, budget);
    case BuyOp(u, s, qty, budget) => BuyLeavesOrders(m, u, s, qty, budget);
    case MortgageOp(u, s, qty, price, budget) => MortgageLeavesOrders(m, u, s, qty, price, budget);
    case SquareOffOp(i) => if i < |m.lends| { SquareOffLeavesOrders(m, i); }
    case WakeOp(o, budget) =>
  }

  lemma BidDepositsStay(m: Models, o: Order, fee: nat, budget: nat)
    ensures m.deposits.Keys <= Accounts.PlaceBid(m, o, fee, budget).m.deposits.Keys
  {
    hide Accounts.BidError, Accounts.OrderPrice, Wrap64, Accounts.Row;
  }

  lemma AskDepositsStay(m: Models, o: Order, fee: nat, budget: nat)
    ensures m.deposits.Keys <= Accounts.PlaceAsk(m, o, fee, budget).m.deposits.Keys
  {
    hide Accounts.PriceError, Accounts.ShortSellQty, Accounts.ActiveLends, Accounts.Available, Accounts.AskPlaced, Wrap64;
    if Accounts.PlaceAsk(m, o, fee, budget).recorded {
      AskPlacedIs(m, o, fee, Accounts.ShortSellQty(m, o));
    }
  }

  lemma ElsewhereInOrder(b: Book, stockId: nat, op: Accounts.Op)
    requires InOrder(b, stockId) && Legal(b.m, op) && !Misbooks(b.m, op) && OtherStock(op, stockId)
    ensures InOrder(b.(m := Accounts.Do(b.m, op)), stockId)
  {
    var m' := Accounts.Do(b.m, op);
    assert Booked(b.m) && AllSynced(b.m, stockId);
    hide InOrder, Booked, Legal, Misbooks, Accounts.Do, OtherStock;
    StepBookedIff(b.m, op);
    OrdersOnlyGrow(b.m, op);
    DepositsStay(b.m, op);
    forall x | x in m'.orders && x.stockId == stockId ensures x in b.m.orders && Synced(m', x) {
      OtherStockPlaced(b.m, stockId, op, x);
      OtherStockUntouched(b.m, stockId, op, x);
      assert Synced(b.m, x);
    }
    forall x | x in b.m.orders && x.stockId == stockId ensures Look(m'.progress, x) == Look(b.m.progress, x) {
      OtherStockUntouched(b.m, stockId, op, x);
    }
    SameObjectsInOrder(b, m', stockId);
  }

  // -------------------------------------------------------------------------
  // Runs
  // -------------------------------------------------------------------------

  lemma StepInOrder(b: Book, stockId: nat, e: Event) returns (ops: seq<Accounts.Op>)
    requires InOrder(b, stockId) && Usual(b, stockId, e)
    ensures InOrder(Step(b, e), stockId)
    ensures LegalOps(b.m, ops) && Accounts.RunOps(b.m, ops) == Step(b, e).m
  {
    hide InOrder, Process, Accounts.Cancel, Place, SmallCall, Legal, Misbooks;
    ops := [];
    match e
    case Arrive(o, fee) =>
      if Place(b.m, o, fee).error.None? {
        ops := ArriveInOrder(b, stockId, o, fee);
      } else {
        RefusedKeeps(b, stockId, o, fee);
      }
    case Withdraw(u, o) =>
      if Accounts.Cancel(b.m, u, o, PLENTY).error.None? {
        WithdrawInOrder(b, stockId, u, o);
      } else {
        RefusedInOrder(b, stockId, u, o);
      }
      CancelIsLegal(b.m, u, o);
      ops := FirstOp(b.m, Accounts.CancelOp(u, o, PLENTY), []);
    case Elsewhere(op) =>
      ElsewhereInOrder(b, stockId, op);
      ops := FirstOp(b.m, op, []);
  }

  lemma CancelIsLegal(m: Models, u: nat, o: Order)
    requires Accounts.Findable(m, o) ==> o in m.orders
    ensures Legal(m, Accounts.CancelOp(u, o, PLENTY))
  {
  }

  /** In every run of placements and cancellations in this stock, with any legal operations on other stocks,
      purchases, mortgages and squarings-off in between: depth is the sum of the open quantities, every
      open order of the stock rests in the book, no two resting orders of different users match, and
      the accounts move by legal operations only, so all that holds of their runs holds here. */
  lemma {:induction false} StockStaysInOrder(b: Book, stockId: nat, es: seq<Event>) returns (ops: seq<Accounts.Op>)
    requires InOrder(b, stockId) && UsualRun(b, stockId, es)
    ensures InOrder(Run(b, es), stockId)
    ensures LegalOps(b.m, ops) && Accounts.RunOps(b.m, ops) == Run(b, es).m
    decreases |es|
  {
    hide InOrder, Step, Accounts.Do, Legal, Usual;
    if es == [] {
      ops := [];
    } else {
      var xs := StepInOrder(b, stockId, es[0]);
      var ys := StockStaysInOrder(Step(b, es[0]), stockId, es[1..]);
      ThenOps(b.m, xs, ys);
      ops := xs + ys;
    }
  }

  /** After any such run, no two open orders of different users could still trade: both are limit orders, and
      the buyer offers less than the seller asks. */
  lemma NoTradeMissed(b: Book, stockId: nat, es: seq<Event>, ask: Order, bid: Order)
    requires InOrder(b, stockId) && UsualRun(b, stockId, es)
    requires var m := Run(b, es).m;
             && ask in m.orders && bid in m.orders && ask.id.side == AskSide && bid.id.side == BidSide
             && ask.stockId == stockId == bid.stockId && ask.userId != bid.userId
             && !Look(m.stored, ask).isClosed && !Look(m.stored, bid).isClosed
    ensures !IsOrderMatching(ask, bid)
    ensures ask.oType != Market && ask.oType != StopLossActive && bid.oType == Limit && bid.price < ask.price
  {
    var r := Run(b, es);
    var ops := StockStaysInOrder(b, stockId, es);
    assert Synced(r.m, ask) && Synced(r.m, bid);
    assert ask in r.Live(AskSide) && bid in r.Live(BidSide);
    assert !Crossing(r, ask, bid);
  }
}
