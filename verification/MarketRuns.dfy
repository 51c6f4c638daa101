/** One stock's matcher over the real accounts, with orders of any type, dormant stop-losses and failing
    writes: whatever it does to the accounts is a run of legal operations, so all that holds of such runs
    holds of a running server. */
module MarketRuns {
  import opened Words
  import opened Orders
  import opened State
  import opened Matching
  import opened BookTheorems
  import opened NoOrderLost
  import opened DepthAgrees
  import opened DepthStops
  import opened DepthTurn
  import opened DepthRuns
  import opened Uncrossed
  import opened Reservations
  import opened OrderLife
  import opened RealFills
  import Accounts
  import Conservation
  import Depths
  import DoubleEntry
  import Heap
  import Seqs
  import StockReserves

  /** Every recorded order has its objects, and its user is known. */
  ghost predicate Tables(m: Models) {
    forall x :: x in m.orders ==> x.id in m.stored && x.id in m.progress && x.userId in m.users
  }

  /** An order the matcher may hold: recorded, or of a placing that was rolled back. */
  ghost predicate Handed(m: Models, x: Order) {
    Known(m, x) || Foreign(m, x)
  }

  /** The same before it is woken. */
  ghost predicate Asleep(m: Models, x: Order) {
    x in m.orders || Foreign(m, x)
  }

  lemma AsleepHanded(m: Models, x: Order)
    requires Asleep(m, x)
    ensures Handed(m, x) && Handed(m, Triggered(x))
  {
    if Foreign(m, x) {
      assert Foreign(m, Triggered(x));
    }
  }

  lemma HandedUser(m: Models, x: Order)
    requires Tables(m) && Handed(m, x)
    ensures x.userId in m.users && x.id in m.progress && (x.id in m.deposits ==> x.id in m.stored)
  {
    if Known(m, x) {
      var y :| y in m.orders && (x == y || x == Triggered(y));
    }
  }

  // -------------------------------------------------------------------------
  // What a step does to the orders it does not concern
  // -------------------------------------------------------------------------

  /** The orders a step concerns. */
  function Concerned(op: Accounts.Op): set<OrderId> {
    match op
    case PlaceBidOp(o, _, _) => {o.id}
    case PlaceAskOp(o, _, _) => {o.id}
    case FillOp(a, b, _, _, _) => {a.id, b.id}
    case CancelOp(_, o, _) => {o.id}
    case WakeOp(o, _) => {o.id}
    case _ => {}
  }

  /** Rows are only inserted for the orders concerned, and no object disappears. */
  ghost predicate Rows(m: Models, m': Models, ids: set<OrderId>) {
    && RecordsStay(m, m') && m.stored.Keys <= m'.stored.Keys && m.progress.Keys <= m'.progress.Keys
    && (forall id :: id in m'.stored && id !in ids ==> id in m.stored)
    && (forall x :: x in m'.orders && x !in m.orders ==> x.id in m'.stored && x.id in m'.progress && x.userId in m'.users)
    && (forall z: Order :: z.id !in ids ==> Look(m'.progress, z) == Look(m.progress, z))
  }

  lemma AddingRows(m: Models, m': Models, o: Order)
    requires Adds(m, m', o) && (m'.orders != m.orders ==> o.userId in m'.users)
    ensures Rows(m, m', {o.id})
  {
  }

  lemma LeftRows(m: Models, m': Models)
    requires LeavesOrders(m, m')
    ensures Rows(m, m', {})
  {
  }

  lemma PlacedRows(m: Models, o: Order, fee: nat, budget: nat)
    ensures Rows(m, Accounts.PlaceBid(m, o, fee, budget).m, {o.id}) && Rows(m, Accounts.PlaceAsk(m, o, fee, budget).m, {o.id})
  {
    hide Accounts.PlaceBid, Accounts.PlaceAsk, Rows, Adds;
    BidAdds(m, o, fee, budget);
    AskAdds(m, o, fee, budget);
    PlacedUser(m, o, fee, budget);
    AddingRows(m, Accounts.PlaceBid(m, o, fee, budget).m, o);
    AddingRows(m, Accounts.PlaceAsk(m, o, fee, budget).m, o);
  }

  lemma PlacedUser(m: Models, o: Order, fee: nat, budget: nat)
    ensures Accounts.PlaceBid(m, o, fee, budget).m.orders != m.orders ==> o.userId in m.users
    ensures Accounts.PlaceAsk(m, o, fee, budget).m.orders != m.orders ==> o.userId in m.users
  {
    hide Accounts.PriceError, Accounts.OrderPrice, Accounts.ShortSellQty, Accounts.ActiveLends, Accounts.Available, Accounts.AskPlaced,
         Accounts.BidPlaced;
  }

  lemma FillRows(m: Models, a: Order, b: Order, price: nat, qty: nat, budget: nat)
    requires a.id != b.id && Handed(m, a) && Handed(m, b) && Tables(m)
    ensures Rows(m, Accounts.Fill(m, a, b, price, qty, budget).m, {a.id, b.id})
  {
    hide Accounts.Fill, Rows, Handed, Tables, RecordsStay, OnlyAdds;
    var r := Accounts.Fill(m, a, b, price, qty, budget);
    FillKeepsTable(m, a, b, price, qty, budget);
    HandedUser(m, a);
    HandedUser(m, b);
    if r.traded {
      TradeRowsOnly(m, a, b, price, qty, budget);
    } else if r.bid == Done {
      CloseRowsOnly(m, a, b, price, qty, budget);
    } else {
      NoFill(m, a, b, price, qty, budget);
      hide HalfCloses;
      SameRows(m, r.m, {a.id, b.id});
    }
  }

  lemma SameRows(m: Models, m': Models, ids: set<OrderId>)
    requires m'.orders == m.orders && m'.stored == m.stored && m'.progress == m.progress
    ensures Rows(m, m', ids)
  {
  }

  lemma TradeRowsOnly(m: Models, a: Order, b: Order, price: nat, qty: nat, budget: nat)
    requires a.id in m.progress && b.id in m.progress && a.userId in m.users && b.userId in m.users
    requires var r := Accounts.Fill(m, a, b, price, qty, budget); r.traded && RecordsStay(m, r.m) && OnlyAdds(m, r.m, {a, b})
    ensures Rows(m, Accounts.Fill(m, a, b, price, qty, budget).m, {a.id, b.id})
  {
    hide Accounts.Fill, Accounts.CashLeft, Accounts.TradeRows, Accounts.Portion, Accounts.AskTax, Accounts.BidTax, FilledBy;
    TradeShape(m, a, b, price, qty, budget);
  }

  lemma CloseRowsOnly(m: Models, a: Order, b: Order, price: nat, qty: nat, budget: nat)
    requires a.id != b.id && a.id in m.progress && b.id in m.progress && (b.id in m.deposits ==> b.id in m.stored)
    requires var r := Accounts.Fill(m, a, b, price, qty, budget); !r.traded && r.bid == Done && RecordsStay(m, r.m)
    ensures Rows(m, Accounts.Fill(m, a, b, price, qty, budget).m, {a.id, b.id})
  {
    hide Accounts.Fill, Accounts.CashLeft, Accounts.Refund, Accounts.Refunded, Accounts.RefundRow;
    ClosedShape(m, a, b, price, qty, budget);
  }

  lemma CancelRows(m: Models, u: nat, o: Order, budget: nat)
    requires Tables(m) && (Accounts.Findable(m, o) ==> o in m.orders || Foreign(m, o))
    ensures Rows(m, Accounts.Cancel(m, u, o, budget).m, {o.id})
  {
    hide Accounts.CancelOpen, Accounts.Seen, Accounts.LookedUp;
    var m' := Accounts.Cancel(m, u, o, budget).m;
    if u in m.users && Accounts.Findable(m, o) && o.userId == u && !Accounts.Seen(m, o).isClosed {
      assert o.id in m.progress;
      CancelOpenShape(m, o, budget);
    } else {
      LookingKeeps(m, o);
    }
  }

  lemma LookingKeeps(m: Models, o: Order)
    ensures var m' := Accounts.LookedUp(m, o); m'.orders == m.orders && m'.stored == m.stored && m'.progress == m.progress
  {
  }

  lemma WakeRows(m: Models, o: Order, saved: bool)
    requires Tables(m) && Asleep(m, o)
    ensures Rows(m, Wake(m, o, saved), {o.id})
  {
  }

  /** Every legal step inserts rows only for the orders it concerns. */
  lemma StepRows(m: Models, op: Accounts.Op)
    requires Tables(m) && Legal(m, op)
    ensures Rows(m, Accounts.Do(m, op), Concerned(op))
  {
    hide Accounts.PlaceBid, Accounts.PlaceAsk, Accounts.Fill, Accounts.Cancel, Accounts.BuyFromExchange, Accounts.PerformMortgage,
         Accounts.SquareOff, Wake, Known, Foreign, Tables, Rows, LeavesOrders;
    match op
    case PlaceBidOp(o, fee, budget) => PlacedRows(m, o, fee, budget);
    case PlaceAskOp(o, fee, budget) => PlacedRows(m, o, fee, budget);
    case FillOp(a, b, price, qty, budget) => FillRows(m, a, b, price, qty, budget);
    case CancelOp(u, o, budget) => CancelRows(m, u, o, budget);
    case BuyOp(u, s, qty, budget) =>
      BuyLeavesOrders(m, u, s, qty, budget);
      LeftRows(m, Accounts.Do(m, op));
    case MortgageOp(u, s, qty, price, budget) =>
      MortgageLeavesOrders(m, u, s, qty, price, budget);
      LeftRows(m, Accounts.Do(m, op));
    case SquareOffOp(i) =>
      if i < |m.lends| {
        SquareOffLeavesOrders(m, i);
        LeftRows(m, Accounts.Do(m, op));
      } else {
        SameRows(m, m, {});
      }
    case WakeOp(o, budget) => WakeRows(m, o, budget > 0);
  }

  lemma StepTables(m: Models, op: Accounts.Op)
    requires Tables(m) && Legal(m, op)
    ensures Tables(Accounts.Do(m, op))
  {
    hide Accounts.Do, Legal, Concerned;
    StepRows(m, op);
  }

  /** An order stays handed over, whatever step is taken, if the step does not concern another order with
      its id. */
  lemma StepHanded(m: Models, op: Accounts.Op, x: Order)
    requires Tables(m) && Legal(m, op) && x.id !in Concerned(op)
    ensures Handed(m, x) ==> Handed(Accounts.Do(m, op), x)
    ensures Asleep(m, x) ==> Asleep(Accounts.Do(m, op), x)
  {
    hide Accounts.Do, Legal, Concerned, Foreign, Known;
    StepRows(m, op);
    if Foreign(m, x) {
      StockReserves.ForeignStays(m, op, x);
      ForeignIs(m, x);
    } else if Known(m, x) {
      KnownStays(m, Accounts.Do(m, op), x);
    }
  }

  lemma ForeignIs(m: Models, x: Order)
    requires Foreign(m, x)
    ensures x.id !in m.stored && x.id in m.progress
  {
  }

  lemma KnownStays(m: Models, m': Models, x: Order)
    requires Known(m, x) && RecordsStay(m, m')
    ensures Known(m', x)
  {
    var y :| y in m.orders && (x == y || x == Triggered(y));
    assert y in m'.orders;
  }

  /** The two orders of a fill stay handed over: what it inserts is the ask. */
  lemma FillHanded(m: Models, a: Order, b: Order, price: nat, qty: nat, budget: nat)
    requires Tables(m) && Legal(m, Accounts.FillOp(a, b, price, qty, budget))
    ensures Handed(Accounts.Fill(m, a, b, price, qty, budget).m, a) && Handed(Accounts.Fill(m, a, b, price, qty, budget).m, b)
  {
    var op := Accounts.FillOp(a, b, price, qty, budget);
    var m' := Accounts.Do(m, op);
    StepRows(m, op);
    hide Accounts.Fill, Known;
    if Known(m, a) { KnownStays(m, m', a); } else { ForeignAskHanded(m, a, b, price, qty, budget); }
    if Known(m, b) { KnownStays(m, m', b); } else { ForeignBidHanded(m, a, b, price, qty, budget); }
  }

  lemma ForeignAskHanded(m: Models, a: Order, b: Order, price: nat, qty: nat, budget: nat)
    requires Tables(m) && Legal(m, Accounts.FillOp(a, b, price, qty, budget)) && Foreign(m, a)
    ensures Handed(Accounts.Fill(m, a, b, price, qty, budget).m, a)
  {
    var r := Accounts.Fill(m, a, b, price, qty, budget);
    if r.traded {
      TradeRecords(m, a, b, price, qty, budget);
      FillKeepsTable(Wake(m, a, true), a, b, price, qty, budget);
      hide Accounts.Fill;
      assert a in Wake(m, a, true).orders;
      assert a in r.m.orders;
    } else if r.bid == Done {
      ClosedShape(m, a, b, price, qty, budget);
      hide Accounts.Fill, Accounts.CashLeft, Accounts.Refund;
    } else {
      NoFill(m, a, b, price, qty, budget);
      hide Accounts.Fill, HalfCloses;
    }
  }

  lemma ForeignBidHanded(m: Models, a: Order, b: Order, price: nat, qty: nat, budget: nat)
    requires Foreign(m, b) && a.id != b.id
    ensures Foreign(Accounts.Fill(m, a, b, price, qty, budget).m, b)
  {
    FillGuards(m, a, b, price, qty, budget);
    NoFill(m, a, b, price, qty, budget);
    hide Accounts.Fill, HalfCloses;
  }

  /** So does a woken order, asleep or not: waking records it. */
  lemma WakeAsleep(m: Models, x: Order, saved: bool)
    requires Tables(m) && Asleep(m, x)
    ensures Asleep(Wake(m, x, saved), x)
  {
  }

  // -------------------------------------------------------------------------
  // Waking several stops
  // -------------------------------------------------------------------------

  /** The wakings of stops, as operations on the accounts. */
  function WakeOps(m: Models, xs: seq<Order>, budget: Writes): seq<Accounts.Op>
    decreases |xs|
  {
    if xs == [] then []
    else [Accounts.WakeOp(xs[0], budget.wake(m, xs[0]))]
         + WakeOps(Wake(m, xs[0], budget.wake(m, xs[0]) > 0), xs[1..], budget)
  }

  ghost predicate Distinct(xs: seq<Order>) {
    forall i, j :: 0 <= i < j < |xs| ==> xs[i].id != xs[j].id
  }

  /** They are what the matcher does, and legal; no order is lost to it. */
  lemma {:induction false} WakesAreLegal(m: Models, xs: seq<Order>, budget: Writes)
    requires Tables(m) && Distinct(xs) && forall x :: x in xs ==> x.oType == StopLoss && Asleep(m, x)
    ensures var ops, m' := WakeOps(m, xs, budget), WakeAll(m, xs, FillWith(budget));
            && LegalOps(m, ops) && Accounts.RunOps(m, ops) == m' && Tables(m')
            && (forall y: Order :: y in xs || (forall x :: x in xs ==> x.id != y.id)
                                   ==> (Asleep(m, y) ==> Asleep(m', y)) && (Handed(m, y) ==> Handed(m', y)))
    decreases |xs|
  {
    hide Wake, Tables, Asleep, Handed, Legal;
    if xs != [] {
      var x, rest := xs[0], xs[1..];
      var op := Accounts.WakeOp(x, budget.wake(m, x));
      var m1 := Wake(m, x, budget.wake(m, x) > 0);
      assert Legal(m, op) by { WakeLegal(m, x, budget.wake(m, x)); }
      assert Accounts.Do(m, op) == m1;
      StepTables(m, op);
      WakeAsleep(m, x, budget.wake(m, x) > 0);
      forall y: Order | y.id != x.id ensures (Asleep(m, y) ==> Asleep(m1, y)) && (Handed(m, y) ==> Handed(m1, y)) {
        StepHanded(m, op, y);
      }
      forall y | y in rest ensures y.id != x.id {
        var j :| 0 <= j < |rest| && rest[j] == y;
        assert xs[j + 1] == y;
      }
      forall i, j | 0 <= i < j < |rest| ensures rest[i].id != rest[j].id {
        assert rest[i] == xs[i + 1] && rest[j] == xs[j + 1];
      }
      WakesAreLegal(m1, rest, budget);
      assert ([op] + WakeOps(m1, rest, budget))[1..] == WakeOps(m1, rest, budget);
      WokenStays(m, x, budget.wake(m, x) > 0);
      forall y: Order | y in xs || (forall z :: z in xs ==> z.id != y.id)
        ensures var m' := WakeAll(m, xs, FillWith(budget));
                (Asleep(m, y) ==> Asleep(m', y)) && (Handed(m, y) ==> Handed(m', y))
      {
        if y == x {
          assert forall z :: z in rest ==> z.id != y.id;
        } else if y in xs {
          assert y in rest;
        } else {
          assert x in xs;
        }
      }
    }
  }

  lemma WakeLegal(m: Models, x: Order, budget: nat)
    requires Asleep(m, x) && x.oType == StopLoss
    ensures Legal(m, Accounts.WakeOp(x, budget))
  {
  }

  lemma WokenStays(m: Models, x: Order, saved: bool)
    requires Tables(m) && Asleep(m, x)
    ensures Asleep(Wake(m, x, saved), x) && Handed(Wake(m, x, saved), x)
  {
    AsleepHanded(Wake(m, x, saved), x);
  }

  // -------------------------------------------------------------------------
  // One turn
  // -------------------------------------------------------------------------

  /** The orders of a side were handed over, and are of this stock. */
  ghost predicate SideServed(h: Half, m: Models, stockId: nat) {
    && (forall x :: x in h.live ==> Handed(m, x) && x.stockId == stockId)
    && (forall x :: x in h.stops ==> Asleep(m, x) && x.stockId == stockId)
  }

  ghost predicate Served(b: Book, stockId: nat) {
    Sound(b) && Tables(b.m) && forall s: Side :: SideServed(b.Of(s), b.m, stockId)
  }

  /** The incoming order was handed over too. */
  ghost predicate Incoming(b: Book, stockId: nat, o: Order) {
    Served(b, stockId) && Arriving(b, o) && Handed(b.m, o) && o.stockId == stockId
  }

  lemma ServedAt(b: Book, stockId: nat, s: Side)
    requires Served(b, stockId)
    ensures ValidHalf(s, b.Of(s)) && Tracked(b.Of(s), b.m.progress) && SideServed(b.Of(s), b.m, stockId)
    ensures Sound(b) && Valid(b) && Tables(b.m)
  {
    SoundAt(b, s);
  }

  function FillOpOf(b: Book, o: Order, budget: Writes): Accounts.Op
    requires HasMatch(b, o)
  {
    var (ask, bid) := NextPair(b, o);
    Accounts.FillOp(ask, bid, NextPrice(b, o), NextQty(b, o), budget.fill(b.m, ask, bid))
  }

  lemma PriceWithinLimit(ask: Order, bid: Order, current: nat)
    requires IsOrderMatching(ask, bid)
    ensures !IsMarket(bid.oType) ==> TradePrice(ask, bid, current) <= bid.price
  {
  }

  lemma FillLegalOf(m: Models, ask: Order, bid: Order, price: nat, qty: nat, n: nat)
    requires Handed(m, ask) && Handed(m, bid) && ask.id.side == AskSide && bid.id.side == BidSide && ask.stockId == bid.stockId
    requires qty <= Unfulfilled(ask, Look(m.progress, ask)) && qty <= Unfulfilled(bid, Look(m.progress, bid))
    requires !IsMarket(bid.oType) ==> price <= bid.price
    ensures Legal(m, Accounts.FillOp(ask, bid, price, qty, n))
  {
    hide Known, Foreign, Unfulfilled, Look;
  }

  /** The next fill is legal. */
  lemma NextFillLegal(b: Book, stockId: nat, o: Order, budget: Writes)
    requires Incoming(b, stockId, o) && HasMatch(b, o)
    ensures Legal(b.m, FillOpOf(b, o, budget)) && NextKnown(b, o)
    ensures Accounts.Do(b.m, FillOpOf(b, o, budget)) == NextFill(b, o, FillWith(budget)).m
  {
    hide TopMatch, Sound, Served, Handed, Tables, Tracked, ValidHalf, Accounts.Fill, Unfulfilled, TradePrice, Arriving, Legal, NextFill,
         NextPrice, NextQty, IsOrderMatching;
    var top := TopMatch(b, o).0.value;
    var (ask, bid) := NextPair(b, o);
    TopHanded(b, stockId, o);
    NextIs(b, o, budget);
    PriceWithinLimit(ask, bid, CurrentPrice(b.m, ask.stockId));
    PriceIs(b, o);
    FillLegalOf(b.m, ask, bid, NextPrice(b, o), NextQty(b, o), budget.fill(b.m, ask, bid));
  }

  lemma TopHanded(b: Book, stockId: nat, o: Order)
    requires Incoming(b, stockId, o) && HasMatch(b, o)
    ensures var top := TopMatch(b, o).0.value;
            && Handed(b.m, top) && top.stockId == stockId && top.id.side == Opposite(o.id.side) && top.userId != o.userId
            && Matches(o, top) && top.userId in b.m.users && o.userId in b.m.users && top in b.Live(Opposite(o.id.side))
            && top.id != o.id
  {
    var s, top := Opposite(o.id.side), TopMatch(b, o).0.value;
    ServedAt(b, stockId, s);
    TopIsCounter(b, o);
    TopMatchCorrect(b, o);
    hide TopMatch, Sound, Served, Handed, Tables, Tracked, ValidHalf, Arriving, IsOrderMatching;
    HandedUser(b.m, top);
    HandedUser(b.m, o);
  }

  lemma PriceIs(b: Book, o: Order)
    requires HasMatch(b, o)
    ensures var (ask, bid) := NextPair(b, o); NextPrice(b, o) == TradePrice(ask, bid, CurrentPrice(b.m, ask.stockId))
  {
    hide TopMatch, TradePrice;
  }

  lemma ConcernedIs(b: Book, o: Order, budget: Writes)
    requires HasMatch(b, o)
    ensures Concerned(FillOpOf(b, o, budget)) == {o.id, TopMatch(b, o).0.value.id}
  {
    hide TopMatch, NextPrice, NextQty;
  }

  /** After the fill everything in the book, and the incoming order, is still handed over. */
  lemma FillServes(b: Book, stockId: nat, o: Order, budget: Writes, s: Side)
    requires Incoming(b, stockId, o) && HasMatch(b, o)
    ensures var m' := NextFill(b, o, FillWith(budget)).m;
            && Tables(m') && Handed(m', o) && SideServed(b.Of(s), m', stockId)
  {
    hide Served, Sound, Tables, Handed, Asleep, TopMatch, NextFill, Accounts.Do, Legal, Arriving, Tracked, Population, ValidHalf,
         FillOpOf, Concerned, NextKnown;
    var op, m' := FillOpOf(b, o, budget), NextFill(b, o, FillWith(budget)).m;
    NextFillLegal(b, stockId, o, budget);
    ServedAt(b, stockId, s);
    StepTables(b.m, op);
    PairHanded(b, stockId, o, budget);
    ConcernedIs(b, o, budget);
    forall x | x in b.Of(s).live ensures Handed(m', x) {
      LiveApart(b, stockId, o, s, x);
      if x != TopMatch(b, o).0.value { StepHanded(b.m, op, x); }
    }
    forall x | x in b.Of(s).stops ensures Asleep(m', x) {
      StopApart(b, stockId, o, s, x);
      StepHanded(b.m, op, x);
    }
  }

  lemma PairHanded(b: Book, stockId: nat, o: Order, budget: Writes)
    requires Incoming(b, stockId, o) && HasMatch(b, o)
    ensures var m' := NextFill(b, o, FillWith(budget)).m; Handed(m', o) && Handed(m', TopMatch(b, o).0.value)
  {
    hide Served, Sound, Tables, Handed, TopMatch, NextFill, Legal, Arriving;
    NextFillLegal(b, stockId, o, budget);
    ServedAt(b, stockId, AskSide);
    var op := FillOpOf(b, o, budget);
    FillHanded(b.m, op.ask, op.bid, op.price, op.qty, op.budget);
  }

  /** Live orders other than the one traded with have other ids than the two... */
  lemma LiveApart(b: Book, stockId: nat, o: Order, s: Side, x: Order)
    requires Incoming(b, stockId, o) && HasMatch(b, o) && x in b.Live(s)
    ensures x.id != o.id && (x.id == TopMatch(b, o).0.value.id ==> x == TopMatch(b, o).0.value)
  {
    hide TopMatch, Sound, Served, Tables, Population, Handed, WellFilled;
    ServedAt(b, stockId, s);
    TopHanded(b, stockId, o);
    LiveInPopulation(b.Of(s), x);
    PopulationSide(s, b.Of(s), x);
    hide ValidHalf;
    if s == Opposite(o.id.side) && x.id == TopMatch(b, o).0.value.id {
      UniqueLive(b.Of(s), x, TopMatch(b, o).0.value);
    }
  }

  /** ...and dormant ones all. */
  lemma StopApart(b: Book, stockId: nat, o: Order, s: Side, x: Order)
    requires Incoming(b, stockId, o) && HasMatch(b, o) && x in b.Of(s).stops
    ensures x.id != o.id && x.id != TopMatch(b, o).0.value.id
  {
    hide TopMatch, Sound, Served, Tables, Population, Handed, WellFilled;
    ServedAt(b, stockId, s);
    TopHanded(b, stockId, o);
    StopInPopulation(b.Of(s), x);
    PopulationSide(s, b.Of(s), Triggered(x));
    hide ValidHalf;
    if s == Opposite(o.id.side) {
      StopsApart(b.Of(s), TopMatch(b, o).0.value, x);
    }
  }

  /** The stops woken on one side are told apart by their ids, from each other and from the live orders. */
  lemma WokenDistinct(s: Side, h: Half, price: nat)
    requires ValidHalf(s, h) && UniqueIds(Population(h))
    ensures var w := WokenOf(s, h, price);
            && Distinct(w) && (forall x :: x in w ==> x in h.stops && x.oType == StopLoss && x.id.side == s)
            && (forall x, y :: x in w && y in h.live ==> x.id != y.id)
            && (forall x, y :: x in w && y in h.stops && x.id == y.id ==> x == y)
  {
    hide TriggerHalf, WokenOf, Heap.IsHeap, Population, UniqueIds, Distinct, ShouldTrigger;
    var w := WokenOf(s, h, price);
    WokenAreReached(s, h, price);
    EachWokenOnce(s, h, price);
    forall x, y | x in w && y in h.live ensures x.id != y.id { StopsApart(h, y, x); }
    forall x, y | x in w && y in h.stops && x.id == y.id ensures x == y { SameStop(s, h, x, y); }
  }

  lemma SameStop(s: Side, h: Half, x: Order, y: Order)
    requires ValidHalf(s, h) && UniqueIds(Population(h)) && x in h.stops && y in h.stops && x.id == y.id
    ensures x == y
  {
    StopInPopulation(h, x);
    StopInPopulation(h, y);
    hide Population, Heap.IsHeap;
    assert Triggered(x) == Triggered(y);
  }

  lemma EachWokenOnce(s: Side, h: Half, price: nat)
    requires ValidHalf(s, h) && UniqueIds(Population(h))
    ensures Distinct(WokenOf(s, h, price))
  {
    hide TriggerHalf, WokenOf, Population, ValidHalf, UniqueIds;
    var w, r := WokenOf(s, h, price), TriggerHalf(s, h, price);
    TriggerContents(s, h, price);
    TriggerKeepsPopulation(s, h, price);
    LiveWithin(r);
    assert multiset(TriggeredAll(w)) <= multiset(r.live);
    forall i, j | 0 <= i < j < |w| ensures w[i].id != w[j].id {
      OnceEach(TriggeredAll(w), Population(h), i, j);
    }
  }

  lemma LiveWithin(h: Half)
    ensures multiset(h.live) <= Population(h)
  {
  }

  lemma OnceEach(tw: seq<Order>, all: multiset<Order>, i: nat, j: nat)
    requires UniqueIds(all) && multiset(tw) <= all && i < j < |tw|
    ensures tw[i].id != tw[j].id
  {
    assert tw[i] in multiset(tw) && tw[j] in multiset(tw);
    assert tw[i] in all && tw[j] in all;
    assert all[tw[i]] == 1;
    if tw[i] == tw[j] {
      TwiceIn(tw, i, j);
    }
  }

  lemma TwiceIn(xs: seq<Order>, i: nat, j: nat)
    requires i < j < |xs| && xs[i] == xs[j]
    ensures multiset(xs)[xs[i]] >= 2
  {
    assert xs == xs[..j] + [xs[j]] + xs[j + 1..];
    assert xs[i] == xs[..j][i];
    assert xs[i] in multiset(xs[..j]);
    assert multiset(xs) == multiset(xs[..j]) + multiset([xs[j]]) + multiset(xs[j + 1..]);
  }

  /** The wakings of both sides, after a trade. */
  function BothWakeOps(b: Book, m: Models, price: nat, budget: Writes): seq<Accounts.Op> {
    var asks, bids := WokenOf(AskSide, b.ask, price), WokenOf(BidSide, b.bid, price);
    WakeOps(m, asks, budget) + WakeOps(WakeAll(m, asks, FillWith(budget)), bids, budget)
  }

  lemma BothWakesServe(b: Book, m: Models, stockId: nat, o: Order, price: nat, budget: Writes)
    requires Valid(b) && (forall s: Side :: Tracked(b.Of(s), b.m.progress)) && Tables(m) && Handed(m, o)
    requires forall s: Side :: SideServed(b.Of(s), m, stockId)
    requires forall s: Side, x :: x in Population(b.Of(s)) ==> x.id != o.id
    ensures var ops, m' := BothWakeOps(b, m, price, budget), AfterWakes(b, m, price, FillWith(budget));
            && LegalOps(m, ops) && Accounts.RunOps(m, ops) == m' && Tables(m') && Handed(m', o)
            && forall s: Side :: SideServed(b.Of(s), m', stockId)
  {
    var asks, bids := WokenOf(AskSide, b.ask, price), WokenOf(BidSide, b.bid, price);
    assert ValidHalf(AskSide, b.Of(AskSide)) && ValidHalf(BidSide, b.Of(BidSide));
    assert Tracked(b.Of(AskSide), b.m.progress) && Tracked(b.Of(BidSide), b.m.progress);
    assert b.Of(AskSide) == b.ask && b.Of(BidSide) == b.bid;
    WokenDistinct(AskSide, b.ask, price);
    WokenDistinct(BidSide, b.bid, price);
    NotWoken(b, o, AskSide, asks);
    NotWoken(b, o, BidSide, bids);
    WakesAre(b, m, price, FillWith(budget));
    hide WokenOf, Tables, Handed, Asleep, WakeOps, WakeAll, AfterWakes, Valid, ValidHalf, Tracked, Population, FillWith, ShouldTrigger, Distinct;
    var m1 := WakeAll(m, asks, FillWith(budget));
    SidesOf(b);
    WakesServe(b, m, stockId, o, AskSide, asks, budget);
    WakesServe(b, m1, stockId, o, BidSide, bids, budget);
    ThenOps(m, WakeOps(m, asks, budget), WakeOps(m1, bids, budget));
  }

  lemma WakesAre(b: Book, m: Models, price: nat, f: Desk)
    ensures AfterWakes(b, m, price, f) == WakeAll(WakeAll(m, WokenOf(AskSide, b.ask, price), f), WokenOf(BidSide, b.bid, price), f)
  {
  }

  lemma NotWoken(b: Book, o: Order, s: Side, w: seq<Order>)
    requires forall x :: x in w ==> x in b.Of(s).stops
    requires forall s: Side, x :: x in Population(b.Of(s)) ==> x.id != o.id
    ensures forall x :: x in w ==> x.id != o.id
  {
    forall x | x in w ensures x.id != o.id { StopInPopulation(b.Of(s), x); }
  }

  /** Waking one side's stops keeps both sides and the incoming order handed over. */
  lemma WakesServe(b: Book, m: Models, stockId: nat, o: Order, s: Side, w: seq<Order>, budget: Writes)
    requires Tables(m) && Handed(m, o) && forall t: Side :: SideServed(b.Of(t), m, stockId)
    requires Distinct(w) && forall x :: x in w ==> x in b.Of(s).stops && x.oType == StopLoss && x.id != o.id && x.id.side == s
    requires forall x, y :: x in w && y in b.Of(s).live ==> x.id != y.id
    requires forall x, y :: x in w && y in b.Of(s).stops && x.id == y.id ==> x == y
    requires forall t: Side, y :: y in b.Of(t).live || y in b.Of(t).stops ==> y.id.side == t
    ensures var m' := WakeAll(m, w, FillWith(budget));
            && LegalOps(m, WakeOps(m, w, budget)) && Accounts.RunOps(m, WakeOps(m, w, budget)) == m' && Tables(m') && Handed(m', o)
            && forall t: Side :: SideServed(b.Of(t), m', stockId)
  {
    hide Tables, Handed, Asleep, WakeOps, WakeAll, FillWith, Distinct, LegalOps;
    assert forall x :: x in w ==> Asleep(m, x) by { assert SideServed(b.Of(s), m, stockId); }
    WakesAreLegal(m, w, budget);
    var m' := WakeAll(m, w, FillWith(budget));
    forall t: Side ensures SideServed(b.Of(t), m', stockId) {
      assert SideServed(b.Of(t), m, stockId);
      StillServed(b.Of(t), m, m', stockId, w);
    }
  }

  lemma StillServed(h: Half, m: Models, m': Models, stockId: nat, w: seq<Order>)
    requires SideServed(h, m, stockId)
    requires forall x, y :: x in w && y in h.live ==> x.id != y.id
    requires forall x, y :: x in w && y in h.stops && x.id == y.id ==> x == y
    requires forall y: Order :: y in w || (forall x :: x in w ==> x.id != y.id)
                                ==> (Asleep(m, y) ==> Asleep(m', y)) && (Handed(m, y) ==> Handed(m', y))
    ensures SideServed(h, m', stockId)
  {
    hide Handed, Asleep;
    forall y | y in h.live ensures Handed(m', y) {
      assert forall x :: x in w ==> x.id != y.id;
    }
    forall y | y in h.stops ensures Asleep(m', y) {
      assert y in w || forall x :: x in w ==> x.id != y.id;
    }
  }

  lemma SidesOf(b: Book)
    requires Valid(b)
    ensures forall t: Side, y :: y in b.Of(t).live || y in b.Of(t).stops ==> y.id.side == t
  {
    forall t: Side, y | y in b.Of(t).live || y in b.Of(t).stops ensures y.id.side == t {
      assert ValidHalf(t, b.Of(t));
    }
  }

  /** The next turn as a run of operations: the fill and, if it trades, the wakings of both sides. */
  function TurnOps(b: Book, o: Order, budget: Writes): seq<Accounts.Op>
    requires HasMatch(b, o)
  {
    var r := NextFill(b, o, FillWith(budget));
    [FillOpOf(b, o, budget)] + if r.traded then BothWakeOps(b, r.m, NextPrice(b, o), budget) else []
  }

  lemma OneOp(m: Models, op: Accounts.Op)
    requires Legal(m, op)
    ensures LegalOps(m, [op]) && Accounts.RunOps(m, [op]) == Accounts.Do(m, op)
  {
    hide Legal, Accounts.Do;
    assert [op][1..] == [];
    assert Accounts.RunOps(Accounts.Do(m, op), []) == Accounts.Do(m, op) && LegalOps(Accounts.Do(m, op), []);
  }

  lemma NoOps(m: Models)
    ensures LegalOps(m, []) && Accounts.RunOps(m, []) == m
  {
  }

  /** The accounts after the turn, and what is handed over there. */
  lemma TurnServes(b: Book, stockId: nat, o: Order, budget: Writes)
    requires Incoming(b, stockId, o) && HasMatch(b, o)
    ensures var ops, m' := TurnOps(b, o, budget), PlayRound(b, o, FillWith(budget)).b.m;
            && LegalOps(b.m, ops) && Accounts.RunOps(b.m, ops) == m' && Tables(m') && Handed(m', o)
            && forall s: Side :: SideServed(b.Of(s), m', stockId)
  {
    hide Served, Tables, Handed, TopMatch, PlayRound, NextFill, NextPrice, Legal, Arriving, Accounts.Do, BothWakeOps, AfterWakes,
         FillOpOf, SideServed, LegalOps, Accounts.RunOps, Tracked, Population, Valid, FillWith;
    var f, op := FillWith(budget), FillOpOf(b, o, budget);
    var r := NextFill(b, o, f);
    ServedAt(b, stockId, AskSide);
    NextFillLegal(b, stockId, o, budget);
    OneOp(b.m, op);
    RoundHalves(b, o, f);
    forall s: Side ensures SideServed(b.Of(s), r.m, stockId) { FillServes(b, stockId, o, budget, s); }
    FillServes(b, stockId, o, budget, AskSide);
    if r.traded {
      IncomingApart(b, stockId, o);
      BothWakesServe(b, r.m, stockId, o, NextPrice(b, o), budget);
      ThenOps(b.m, [op], BothWakeOps(b, r.m, NextPrice(b, o), budget));
    } else {
      assert [op] + [] == [op];
    }
  }

  lemma IncomingApart(b: Book, stockId: nat, o: Order)
    requires Incoming(b, stockId, o)
    ensures forall s: Side, x :: x in Population(b.Of(s)) ==> x.id != o.id
    ensures forall s: Side :: Tracked(b.Of(s), b.m.progress)
    ensures Valid(b)
  {
    hide Tables, Handed, Population, Tracked;
    ServedAt(b, stockId, AskSide);
    forall s: Side, x | x in Population(b.Of(s)) ensures x.id != o.id {
      ServedAt(b, stockId, s);
      PopulationSide(s, b.Of(s), x);
      if s == o.id.side { assert Unseen(o, Population(b.Of(s))); }
    }
  }

  /** Nothing is in the queues afterwards but what was there, or was dormant. */
  lemma TurnQueues(b: Book, stockId: nat, o: Order, budget: Writes, s: Side)
    requires Incoming(b, stockId, o) && HasMatch(b, o)
    ensures var m', h' := PlayRound(b, o, FillWith(budget)).b.m, PlayRound(b, o, FillWith(budget)).b.Of(s);
            SideServed(h', m', stockId)
  {
    hide Served, Tables, Handed, Asleep, TopMatch, PlayRound, NextFill, NextPrice, Arriving, NextPopped, FillWith, Tracked, Population, ValidHalf;
    var r := PlayRound(b, o, FillWith(budget)).b;
    TurnServes(b, stockId, o, budget);
    ServedAt(b, stockId, s);
    assert SideServed(b.Of(s), r.m, stockId);
    assert UniqueIds(Population(b.Of(Opposite(o.id.side)))) by { CounterUnique(b, stockId, o); }
    forall x | x in r.Of(s).live ensures Handed(r.m, x) && x.stockId == stockId {
      LiveAfterTurn(b, o, FillWith(budget), s, x);
      if x !in b.Live(s) {
        var y :| y in b.Of(s).stops && ShouldTrigger(NextPrice(b, o), y) && x == Triggered(y);
        AsleepHanded(r.m, y);
      }
    }
    forall x | x in r.Of(s).stops ensures Asleep(r.m, x) && x.stockId == stockId {
      RoundStops(b, o, FillWith(budget), s, x);
    }
  }

  lemma CounterUnique(b: Book, stockId: nat, o: Order)
    requires Served(b, stockId)
    ensures UniqueIds(Population(b.Of(Opposite(o.id.side))))
  {
    hide Tables, Population;
    ServedAt(b, stockId, Opposite(o.id.side));
  }

  /** Everything is as it was for the next turn. */
  lemma TurnKeepsServed(b: Book, stockId: nat, o: Order, budget: Writes)
    requires Incoming(b, stockId, o) && HasMatch(b, o)
    ensures Incoming(PlayRound(b, o, FillWith(budget)).b, stockId, o)
  {
    hide Sound, Tables, Handed, TopMatch, PlayRound, NextFill, Arriving, HonestTurn, SideServed, LegalOps, Accounts.RunOps, TurnOps, NextKnown;
    TurnServes(b, stockId, o, budget);
    NextFillLegal(b, stockId, o, budget);
    NextHonest(b, o, budget);
    TurnSound(b, o, FillWith(budget));
    TurnKeepsArriving(b, o, FillWith(budget));
    forall s: Side ensures SideServed(PlayRound(b, o, FillWith(budget)).b.Of(s), PlayRound(b, o, FillWith(budget)).b.m, stockId) {
      TurnQueues(b, stockId, o, budget, s);
    }
  }

  // -------------------------------------------------------------------------
  // A call
  // -------------------------------------------------------------------------

  lemma RestServed(b: Book, stockId: nat, o: Order)
    requires Incoming(b, stockId, o) && !HasMatch(b, o)
    ensures Served(Rest(b, o), stockId) && Rest(b, o).m == b.m
  {
    hide Tables, Handed, Asleep, Rest, HasMatch, Population, ValidHalf, WellFilled, Tracked, Sound, Unseen, TopMatch, Heap.Push;
    var us, s, r := o.id.side, Opposite(o.id.side), Rest(b, o);
    ServedAt(b, stockId, us);
    ServedAt(b, stockId, s);
    ArrivingUnseen(b, o);
    RestQueues(b, o);
    RestHalves(b, o);
    RestCounterSide(b, o);
    RestOwnSide(b, o);
    StopsUnfilled(b.Of(us), b.m.progress, r.Of(us));
    JoinTracked(b.Of(us), r.Of(us), b.m.progress, o);
    SameTracked(b.Of(s), r.Of(s), b.m.progress);
    BothSound(r, us);
    Seqs.SameMembers(r.Live(us), [o], b.Live(us)) by { assert multiset([o] + b.Live(us)) == multiset{o} + multiset(b.Live(us)); }
    Seqs.SameMembers(r.Live(s), b.Live(s), []);
    forall t: Side ensures SideServed(r.Of(t), r.m, stockId) { assert t == us || t == s; }
  }

  lemma StopsUnfilled(h: Half, pm: ProgressMap, r: Half)
    requires Tracked(h, pm) && r.stops == h.stops
    ensures Unfilled(r.stops, pm)
  {
  }

  lemma SameTracked(h: Half, r: Half, pm: ProgressMap)
    requires Tracked(h, pm) && Population(r) == Population(h) && r.stops == h.stops
    ensures Tracked(r, pm)
  {
  }

  /** A call of the matcher, whatever stop-losses are dormant and whatever writes fail, moves the accounts by
      a run of legal operations, and leaves a book of orders handed over. */
  lemma {:induction false} CallIsLegal(b: Book, stockId: nat, o: Order, budget: Writes) returns (ops: seq<Accounts.Op>)
    requires Incoming(b, stockId, o)
    ensures var r := Process(b, o, FillWith(budget)).b;
            LegalOps(b.m, ops) && Accounts.RunOps(b.m, ops) == r.m && Served(r, stockId)
    decreases |b.Live(Opposite(o.id.side))| + |b.Of(Opposite(o.id.side)).stops|
  {
    hide Served, Tables, Handed, TopMatch, PlayRound, Rest, Arriving, LegalOps, Accounts.RunOps, TurnOps, FillWith;
    if HasMatch(b, o) {
      var r := PlayRound(b, o, FillWith(budget));
      ops := TurnOps(b, o, budget);
      TurnServes(b, stockId, o, budget);
      TurnKeepsServed(b, stockId, o, budget);
      if r.topDone && !r.done {
        var rest := CallIsLegal(r.b, stockId, o, budget);
        ThenOps(b.m, ops, rest);
        ops := ops + rest;
      }
    } else {
      RestServed(b, stockId, o);
      NoOps(b.m);
      ops := [];
    }
  }

  // -------------------------------------------------------------------------
  // Runs of a server
  // -------------------------------------------------------------------------

  /** An order of this stock, with the writes of its placing that succeed; a cancellation; or an operation
      that concerns none of the orders in the book. */
  datatype Event =
    | Arrive(o: Order, fee: nat, writes: nat)
    | Withdraw(userId: nat, o: Order, writes: nat)
    | Elsewhere(op: Accounts.Op)

  function PlaceOp(o: Order, fee: nat, writes: nat): Accounts.Op {
    if o.id.side == AskSide then Accounts.PlaceAskOp(o, fee, writes) else Accounts.PlaceBidOp(o, fee, writes)
  }

  function Place(m: Models, o: Order, fee: nat, writes: nat): Accounts.Placement {
    if o.id.side == AskSide then Accounts.PlaceAsk(m, o, fee, writes) else Accounts.PlaceBid(m, o, fee, writes)
  }

  /** Whatever placing does not refuse goes to the matcher, recorded or not. */
  function Step(b: Book, e: Event, budget: Writes): Book {
    match e
    case Arrive(o, fee, writes) =>
      var r := Place(b.m, o, fee, writes);
      if r.error.Some? then b.(m := r.m) else AddNew(b.(m := r.m), o, FillWith(budget))
    case Withdraw(u, o, writes) =>
      var r := Accounts.Cancel(b.m, u, o, writes);
      if r.error.Some? then b.(m := r.m) else CancelInBook(b.(m := r.m), o)
    case Elsewhere(op) => b.(m := Accounts.Do(b.m, op))
  }

  /** No order of the book has one of these ids. */
  ghost predicate NotConcerned(b: Book, ids: set<OrderId>) {
    forall s: Side, x :: x in Population(b.Of(s)) ==> x.id !in ids
  }

  /** The order of o's id in these queues is o. */
  ghost predicate MeantBy(h: Half, o: Order) {
    && (forall x :: x in h.live && x.id == o.id ==> x == Triggered(o))
    && (forall x :: x in h.stops && x.id == o.id ==> x == o)
  }

  /** Ids name orders: new ones are fresh, and a cancellation means the order of that id. */
  ghost predicate Usual(b: Book, stockId: nat, e: Event) {
    match e
    case Arrive(o, _, _) =>
      && o.id !in b.m.progress && o.id !in b.m.stored && o.id !in b.m.deposits && o.stockId == stockId
      && o.oType != StopLossActive
    case Withdraw(u, o, writes) =>
      && Legal(b.m, Accounts.CancelOp(u, o, writes))
      && forall s: Side :: MeantBy(b.Of(s), o)
    case Elsewhere(op) => Legal(b.m, op) && NotConcerned(b, Concerned(op))
  }

  function Run(b: Book, es: seq<Event>, budget: Writes): Book
    decreases |es|
  {
    if es == [] then b else Run(Step(b, es[0], budget), es[1..], budget)
  }

  ghost predicate UsualRun(b: Book, stockId: nat, es: seq<Event>, budget: Writes)
    decreases |es|
  {
    es != [] ==> Usual(b, stockId, es[0]) && UsualRun(Step(b, es[0], budget), stockId, es[1..], budget)
  }

  /** Every order of the book has an object. */
  lemma BookIds(b: Book, stockId: nat, s: Side, x: Order)
    requires Served(b, stockId) && x in Population(b.Of(s))
    ensures x.id in b.m.progress && x.id.side == s
  {
    hide Tables, Handed, Asleep, Sound;
    ServedAt(b, stockId, s);
    PopulationSide(s, b.Of(s), x);
    assert x in multiset(b.Of(s).live) || x in multiset(TriggeredAll(b.Of(s).stops));
    if x in b.Of(s).live {
      HandedUser(b.m, x);
    } else {
      var y := TriggeredMember(b.Of(s).stops, x);
      AsleepHanded(b.m, y);
      HandedUser(b.m, y);
    }
  }

  /** An order's object did not change, but by being closed. */
  ghost predicate OnlyCloses(pm: ProgressMap, pm': ProgressMap, x: Order) {
    Look(pm', x).fulfilled == Look(pm, x).fulfilled && (Look(pm, x).isClosed ==> Look(pm', x).isClosed)
  }

  lemma TrackedCloses(h: Half, pm: ProgressMap, pm': ProgressMap)
    requires Tracked(h, pm) && forall x :: x in Population(h) ==> OnlyCloses(pm, pm', x)
    ensures Tracked(h, pm')
  {
    forall x | x in h.stops ensures OnlyCloses(pm, pm', x) {
      StopInPopulation(h, x);
      assert OnlyCloses(pm, pm', Triggered(x));
    }
    hide Population;
    forall x | x in Population(h) ensures WellFilled(x, pm') { assert OnlyCloses(pm, pm', x); }
  }

  /** The queues stay in order when no object in them changes but by being closed. */
  lemma SoundKept(b: Book, m': Models, d: Depths.Depth)
    requires Sound(b) && forall s: Side, x :: x in Population(b.Of(s)) ==> OnlyCloses(b.m.progress, m'.progress, x)
    ensures Sound(b.(m := m', depth := d))
  {
    hide ValidHalf, Population, Tracked, OnlyCloses;
    var r := b.(m := m', depth := d);
    forall s: Side ensures ValidHalf(s, r.Of(s)) && Tracked(r.Of(s), m'.progress) {
      SoundAt(b, s);
      assert r.Of(s) == b.Of(s);
      TrackedCloses(b.Of(s), b.m.progress, m'.progress);
    }
  }

  /** A step that concerns no order of the book leaves it as it was. */
  lemma StepServed(b: Book, stockId: nat, op: Accounts.Op)
    requires Served(b, stockId) && Legal(b.m, op) && NotConcerned(b, Concerned(op))
    ensures Served(b.(m := Accounts.Do(b.m, op)), stockId)
  {
    hide Tables, Handed, Asleep, Sound, Legal, Accounts.Do, Concerned, Population;
    var m' := Accounts.Do(b.m, op);
    ServedAt(b, stockId, AskSide);
    StepRows(b.m, op);
    StepTables(b.m, op);
    SoundKept(b, m', b.depth);
    forall s: Side ensures SideServed(b.(m := m').Of(s), m', stockId) {
      ServedAt(b, stockId, s);
      assert b.(m := m').Of(s) == b.Of(s);
      forall x | x in b.Of(s).live ensures Handed(m', x) {
        LiveInPopulation(b.Of(s), x);
        StepHanded(b.m, op, x);
      }
      forall x | x in b.Of(s).stops ensures Asleep(m', x) {
        StopInPopulation(b.Of(s), x);
        StepHanded(b.m, op, x);
      }
    }
  }

  lemma FreshNotConcerned(b: Book, stockId: nat, o: Order)
    requires Served(b, stockId) && o.id !in b.m.progress
    ensures NotConcerned(b, {o.id})
  {
    hide Served, Population;
    forall s: Side, x | x in Population(b.Of(s)) ensures x.id !in {o.id} { BookIds(b, stockId, s, x); }
  }

  /** What placing hands to the matcher. */
  lemma PlacedHanded(m: Models, o: Order, fee: nat, writes: nat)
    requires o.id !in m.progress && o.id !in m.stored && o.id !in m.deposits && Place(m, o, fee, writes).error.None?
    ensures var m' := Place(m, o, fee, writes).m; Asleep(m', o) && Look(m'.progress, o) == Progress(0, false) && o.quantity > 0
    ensures Legal(m, PlaceOp(o, fee, writes)) && Accounts.Do(m, PlaceOp(o, fee, writes)) == Place(m, o, fee, writes).m
    ensures Concerned(PlaceOp(o, fee, writes)) == {o.id}
  {
    if Place(m, o, fee, writes).recorded {
      PlacedRecorded(m, o, fee, writes);
      hide Accounts.PlaceBid, Accounts.PlaceAsk;
    } else {
      StockReserves.UnrecordedIsForeign(m, o, fee, writes);
      UnrecordedFresh(m, o, fee, writes);
      hide Accounts.PlaceBid, Accounts.PlaceAsk;
    }
  }

  lemma UnrecordedFresh(m: Models, o: Order, fee: nat, writes: nat)
    requires var r := Place(m, o, fee, writes); r.error.None? && !r.recorded
    ensures Look(Place(m, o, fee, writes).m.progress, o) == Progress(0, false)
  {
    hide Accounts.BidError, Accounts.AskError, Accounts.ShortSellQty;
  }

  lemma PlacedRecorded(m: Models, o: Order, fee: nat, writes: nat)
    requires Place(m, o, fee, writes).recorded
    ensures var m' := Place(m, o, fee, writes).m; o in m'.orders && Look(m'.progress, o) == Progress(0, false) && o.quantity > 0
  {
    hide Accounts.PriceError, Accounts.OrderPrice, Accounts.ShortSellQty, Accounts.ActiveLends, Accounts.Available, Accounts.AskPlaced;
    if o.id.side == AskSide {
      AskPlacedIs(m, o, fee, Accounts.ShortSellQty(m, o));
    }
  }

  /** A new order, once placed, may be handed to the matcher. */
  lemma PlacedServed(b: Book, stockId: nat, o: Order, fee: nat, writes: nat)
    requires Served(b, stockId) && Usual(b, stockId, Arrive(o, fee, writes)) && Place(b.m, o, fee, writes).error.None?
    ensures var b' := b.(m := Place(b.m, o, fee, writes).m);
            && Served(b', stockId) && NotConcerned(b', {o.id}) && Asleep(b'.m, o)
            && Look(b'.m.progress, o) == Progress(0, false) && o.quantity > 0
    ensures Legal(b.m, PlaceOp(o, fee, writes)) && Accounts.Do(b.m, PlaceOp(o, fee, writes)) == Place(b.m, o, fee, writes).m
  {
    hide Served, Place, Legal, Accounts.Do, Asleep, Concerned, PlaceOp, Population;
    FreshNotConcerned(b, stockId, o);
    PlacedHanded(b.m, o, fee, writes);
    StepServed(b, stockId, PlaceOp(o, fee, writes));
    var b' := b.(m := Place(b.m, o, fee, writes).m);
    forall s: Side, x | x in Population(b'.Of(s)) ensures x.id !in {o.id} { assert x in Population(b.Of(s)); }
  }

  lemma FreshArrives(b: Book, stockId: nat, o: Order)
    requires Served(b, stockId) && NotConcerned(b, {o.id}) && Handed(b.m, o) && o.stockId == stockId && o.oType != StopLoss
    requires Look(b.m.progress, o) == Progress(0, false) && o.quantity > 0
    ensures Incoming(b, stockId, o)
  {
    hide Served, Population, Handed;
    forall x | x in Population(b.Of(o.id.side)) ensures x.id != o.id {
      assert x.id !in {o.id};
    }
  }

  /** A stop-loss whose price is reached is woken at once... */
  lemma WokenArrives(b: Book, stockId: nat, o: Order, budget: Writes) returns (ops: seq<Accounts.Op>)
    requires Served(b, stockId) && NotConcerned(b, {o.id}) && Asleep(b.m, o) && o.stockId == stockId && o.oType == StopLoss
    requires Look(b.m.progress, o) == Progress(0, false) && o.quantity > 0
    ensures var f := FillWith(budget); var r := Process(b.(m := Wake(b.m, o, f.saves(b.m, o))), Triggered(o), f).b;
            LegalOps(b.m, ops) && Accounts.RunOps(b.m, ops) == r.m && Served(r, stockId)
  {
    hide Served, Handed, LegalOps, Accounts.RunOps, Process;
    var op := Accounts.WakeOp(o, budget.wake(b.m, o));
    var b1 := b.(m := Wake(b.m, o, FillWith(budget).saves(b.m, o)));
    WakeLegal(b.m, o, budget.wake(b.m, o));
    assert Accounts.Do(b.m, op) == b1.m;
    StepServed(b, stockId, op);
    ServedAt(b, stockId, AskSide);
    WokenStays(b.m, o, FillWith(budget).saves(b.m, o));
    AsleepHanded(b1.m, o);
    assert Look(b1.m.progress, o) == Progress(0, false);
    hide Wake, Asleep, Tables, Sound;
    SameBook(b, b1, o);
    FreshArrives(b1, stockId, Triggered(o));
    ops := CallIsLegal(b1, stockId, Triggered(o), budget);
    OneOp(b.m, op);
    ThenOps(b.m, [op], ops);
    ops := [op] + ops;
  }

  lemma SameBook(b: Book, b': Book, o: Order)
    requires NotConcerned(b, {o.id}) && b'.ask == b.ask && b'.bid == b.bid
    ensures NotConcerned(b', {Triggered(o).id})
  {
    forall s: Side, x | x in Population(b'.Of(s)) ensures x.id !in {o.id} { assert x in Population(b.Of(s)); }
  }

  /** ...any other waits. */
  lemma StopLoadedServed(b: Book, stockId: nat, o: Order)
    requires Served(b, stockId) && NotConcerned(b, {o.id}) && Asleep(b.m, o) && o.stockId == stockId && o.oType == StopLoss
    requires Look(b.m.progress, o) == Progress(0, false) && o.quantity > 0
    ensures Served(Load(b, o), stockId) && Load(b, o).m == b.m
  {
    hide Served, Population, Load, Asleep;
    forall x | x in Population(b.Of(o.id.side)) ensures x.id != o.id { assert x.id !in {o.id}; }
    LoadServed(b, stockId, o);
  }

  /** Loading an order keeps the book so, stop-loss or not. */
  lemma LoadServed(b: Book, stockId: nat, o: Order)
    requires Served(b, stockId) && Loadable(b, o) && Asleep(b.m, o) && o.stockId == stockId
    ensures Served(Load(b, o), stockId) && Load(b, o).m == b.m
  {
    hide Tables, Handed, Asleep, Population, Tracked, Heap.Push, Heap.IsHeap, Sound, WellFilled;
    var s, r := o.id.side, Load(b, o);
    ServedAt(b, stockId, s);
    ServedAt(b, stockId, Opposite(s));
    AsleepHanded(b.m, o);
    if o.oType == StopLoss {
      Heap.PushRefines(StopType(s), b.Of(s).stops, o) by { HeapsOf(s, b.Of(s)); }
      LoadedStopValid(s, b.Of(s), o);
      StopTracked(b.Of(s), r.Of(s), b.m.progress, o);
      Seqs.SameMembers(r.Of(s).stops, [o], b.Of(s).stops);
    } else {
      Heap.PushRefines(LiveType(s), b.Live(s), o) by { HeapsOf(s, b.Of(s)); }
      PushHalf(s, b.Of(s), o);
      StopsUnfilled(b.Of(s), b.m.progress, r.Of(s));
      JoinTracked(b.Of(s), r.Of(s), b.m.progress, o);
      Seqs.SameMembers(r.Live(s), [o], b.Live(s));
    }
    hide ValidHalf;
    BothSound(r, s);
    forall t: Side ensures SideServed(r.Of(t), r.m, stockId) {
      assert t == s || t == Opposite(s);
    }
  }

  lemma HeapsOf(s: Side, h: Half)
    requires ValidHalf(s, h)
    ensures Heap.IsHeap(LiveType(s), h.live) && Heap.IsHeap(StopType(s), h.stops)
  {
  }

  lemma BothSound(b: Book, us: Side)
    requires ValidHalf(us, b.Of(us)) && Tracked(b.Of(us), b.m.progress)
    requires ValidHalf(Opposite(us), b.Of(Opposite(us))) && Tracked(b.Of(Opposite(us)), b.m.progress)
    ensures Sound(b)
  {
    hide ValidHalf, Tracked;
    forall t: Side ensures ValidHalf(t, b.Of(t)) && Tracked(b.Of(t), b.m.progress) {
      assert t == us || t == Opposite(us);
    }
  }

  lemma StopTracked(h: Half, h': Half, pm: ProgressMap, o: Order)
    requires Tracked(h, pm) && h'.live == h.live && multiset(h'.stops) == multiset(h.stops) + multiset{o}
    requires Look(pm, o).fulfilled == 0 && o.quantity > 0 && WellFilled(o, pm) && Unseen(o, Population(h))
    ensures Tracked(h', pm)
  {
    hide Population, UniqueIds;
    StopJoins(h, h', o);
    Seqs.SameMembers(h'.stops, [o], h.stops);
    assert Look(pm, Triggered(o)) == Look(pm, o);
    JoinTracked(h, h', pm, Triggered(o));
  }

  lemma ArriveServed(b: Book, stockId: nat, o: Order, fee: nat, writes: nat, budget: Writes) returns (ops: seq<Accounts.Op>)
    requires Served(b, stockId) && Usual(b, stockId, Arrive(o, fee, writes)) && Place(b.m, o, fee, writes).error.None?
    ensures var r := Step(b, Arrive(o, fee, writes), budget);
            LegalOps(b.m, ops) && Accounts.RunOps(b.m, ops) == r.m && Served(r, stockId)
  {
    hide Served, Place, Legal, Accounts.Do, Asleep, Handed, PlaceOp, LegalOps, Accounts.RunOps, Process, Wake, FillWith;
    var b' := b.(m := Place(b.m, o, fee, writes).m);
    PlacedServed(b, stockId, o, fee, writes);
    NoOps(b'.m);
    ops := [];
    if o.oType != StopLoss {
      AsleepHanded(b'.m, o);
      FreshArrives(b', stockId, o);
      ops := CallIsLegal(b', stockId, o, budget);
    } else if ShouldTrigger(CurrentPrice(b'.m, o.stockId), o) {
      ops := WokenArrives(b', stockId, o, budget);
    } else {
      StopLoadedServed(b', stockId, o);
    }
    OneOp(b.m, PlaceOp(o, fee, writes));
    ThenOps(b.m, [PlaceOp(o, fee, writes)], ops);
    ops := [PlaceOp(o, fee, writes)] + ops;
  }

  /** A cancellation leaves the order it means handed over, and only closes objects. */
  lemma CancelKeepsHanded(m: Models, u: nat, o: Order, writes: nat)
    requires Tables(m) && Legal(m, Accounts.CancelOp(u, o, writes))
    ensures var m' := Accounts.Cancel(m, u, o, writes).m;
            && (Handed(m, Triggered(o)) ==> Handed(m', Triggered(o))) && (Asleep(m, o) ==> Asleep(m', o))
  {
    hide Accounts.Cancel, Foreign;
    var m' := Accounts.Cancel(m, u, o, writes).m;
    CancelKeepsTable(m, u, o, writes);
    if Known(m, Triggered(o)) { KnownStays(m, m', Triggered(o)); }
    ForeignAnyType(m, o);
    ForeignAnyType(m', o);
    if Foreign(m, o) {
      StockReserves.ForeignSought(m, u, o, writes, o);
      ForeignRecorded(m, u, o, writes);
    }
  }

  lemma ForeignAnyType(m: Models, o: Order)
    ensures Foreign(m, o) <==> Foreign(m, Triggered(o))
  {
  }

  lemma ForeignRecorded(m: Models, u: nat, o: Order, writes: nat)
    requires Foreign(m, o)
    ensures var m' := Accounts.Cancel(m, u, o, writes).m; o.id in m'.stored ==> o in m'.orders
  {
    hide Accounts.CancelOpen, Accounts.Seen;
    if u in m.users && Accounts.Findable(m, o) && o.userId == u && !Accounts.Seen(m, o).isClosed {
      CancelOpenShape(m, o, writes);
    }
  }

  lemma CancelOnlyCloses(m: Models, u: nat, o: Order, writes: nat, x: Order)
    ensures OnlyCloses(m.progress, Accounts.Cancel(m, u, o, writes).m.progress, x)
  {
    hide Accounts.CancelOpen, Accounts.Seen;
    if u in m.users && Accounts.Findable(m, o) && o.userId == u && !Accounts.Seen(m, o).isClosed {
      CancelOpenShape(m, o, writes);
    }
  }

  lemma WithdrawServed(b: Book, stockId: nat, u: nat, o: Order, writes: nat, d: Depths.Depth)
    requires Served(b, stockId) && Usual(b, stockId, Withdraw(u, o, writes))
    ensures Served(b.(m := Accounts.Cancel(b.m, u, o, writes).m, depth := d), stockId)
  {
    hide Tables, Handed, Asleep, Sound, Legal, Accounts.Cancel, Population;
    var op, m' := Accounts.CancelOp(u, o, writes), Accounts.Cancel(b.m, u, o, writes).m;
    ServedAt(b, stockId, AskSide);
    StepTables(b.m, op);
    CancelKeepsHanded(b.m, u, o, writes);
    forall x: Order ensures OnlyCloses(b.m.progress, m'.progress, x) { CancelOnlyCloses(b.m, u, o, writes, x); }
    SoundKept(b, m', d);
    forall s: Side ensures SideServed(b.Of(s), m', stockId) {
      ServedAt(b, stockId, s);
      assert MeantBy(b.Of(s), o);
      forall x | x in b.Of(s).live ensures Handed(m', x) {
        if x.id != o.id { StepHanded(b.m, op, x); }
      }
      forall x | x in b.Of(s).stops ensures Asleep(m', x) {
        if x.id != o.id { StepHanded(b.m, op, x); }
      }
    }
    var r := b.(m := m', depth := d);
    forall s: Side ensures SideServed(r.Of(s), m', stockId) { assert r.Of(s) == b.Of(s); }
  }

  lemma RefusedServed(b: Book, o: Order, fee: nat, writes: nat)
    requires Place(b.m, o, fee, writes).error.Some?
    ensures Place(b.m, o, fee, writes).m == b.m
  {
    hide Accounts.AskError, Accounts.BidError;
  }

  lemma StepIsLegal(b: Book, stockId: nat, e: Event, budget: Writes) returns (ops: seq<Accounts.Op>)
    requires Served(b, stockId) && Usual(b, stockId, e)
    ensures var r := Step(b, e, budget); LegalOps(b.m, ops) && Accounts.RunOps(b.m, ops) == r.m && Served(r, stockId)
  {
    hide Served, Place, Legal, Accounts.Do, Accounts.Cancel, LegalOps, Accounts.RunOps, AddNew, FillWith, Concerned, MeantBy;
    match e
    case Arrive(o, fee, writes) =>
      if Place(b.m, o, fee, writes).error.None? {
        ops := ArriveServed(b, stockId, o, fee, writes, budget);
      } else {
        RefusedServed(b, o, fee, writes);
        NoOps(b.m);
        ops := [];
      }
    case Withdraw(u, o, writes) =>
      var r := Step(b, e, budget);
      WithdrawServed(b, stockId, u, o, writes, r.depth);
      CancelledBook(b, e, budget);
      OneOp(b.m, Accounts.CancelOp(u, o, writes));
      CancelDone(b.m, u, o, writes);
      ops := [Accounts.CancelOp(u, o, writes)];
    case Elsewhere(op) =>
      StepServed(b, stockId, op);
      OneOp(b.m, op);
      ops := [op];
  }

  lemma CancelDone(m: Models, u: nat, o: Order, writes: nat)
    ensures Accounts.Do(m, Accounts.CancelOp(u, o, writes)) == Accounts.Cancel(m, u, o, writes).m
  {
    hide Accounts.Cancel;
  }

  lemma CancelledBook(b: Book, e: Event, budget: Writes)
    requires e.Withdraw?
    ensures var r := Step(b, e, budget); r == b.(m := Accounts.Cancel(b.m, e.userId, e.o, e.writes).m, depth := r.depth)
  {
    hide Accounts.Cancel;
  }

  /** In every run of a server, with orders of any type arriving for one stock, dormant stop-losses woken,
      cancellations, any legal operations beside them, and any writes failing, the accounts move by legal
      operations only: all that holds of such runs holds of the server. */
  lemma {:induction false} ServerIsLegal(b: Book, stockId: nat, es: seq<Event>, budget: Writes) returns (ops: seq<Accounts.Op>)
    requires Served(b, stockId) && UsualRun(b, stockId, es, budget)
    ensures LegalOps(b.m, ops) && Accounts.RunOps(b.m, ops) == Run(b, es, budget).m && Served(Run(b, es, budget), stockId)
    decreases |es|
  {
    hide Served, Step, Usual, LegalOps, Accounts.RunOps;
    if es == [] {
      NoOps(b.m);
      ops := [];
    } else {
      var xs := StepIsLegal(b, stockId, es[0], budget);
      var ys := ServerIsLegal(Step(b, es[0], budget), stockId, es[1..], budget);
      ThenOps(b.m, xs, ys);
      ops := xs + ys;
    }
  }

  lemma {:induction false} LegalFills(m: Models, ops: seq<Accounts.Op>)
    requires LegalOps(m, ops)
    ensures DoubleEntry.AllPaired(ops) && forall op :: op in ops ==> Conservation.SameStock(op)
    decreases |ops|
  {
    hide Accounts.Do, Known, Foreign;
    if ops != [] {
      LegalFills(Accounts.Do(m, ops[0]), ops[1..]);
      forall op | op in ops ensures DoubleEntry.Paired(op) && Conservation.SameStock(op) {
        assert op == ops[0] || op in ops[1..];
      }
    }
  }

  /** So in every run of a server cash is what the ledger says, modulo 2^64, and no stocks appear or
      vanish. */
  lemma ServerBalances(b: Book, stockId: nat, es: seq<Event>, budget: Writes, u: nat)
    requires Served(b, stockId) && UsualRun(b, stockId, es, budget)
    requires DoubleEntry.Costed(b.m) && DoubleEntry.Word(b.m, u) && Conservation.BankFits(b.m)
    ensures var r := Run(b, es, budget).m;
            && u in r.users && r.users[u].cash == Wrap64(b.m.users[u].cash + DoubleEntry.Ledger(r, u) - DoubleEntry.Ledger(b.m, u))
            && Conservation.Conserved(b.m, r)
  {
    hide Served, UsualRun, Run, LegalOps, Accounts.RunOps, DoubleEntry.Costed, Conservation.BankFits, Conservation.Conserved, DoubleEntry.Ledger,
         Wrap64;
    var ops := ServerIsLegal(b, stockId, es, budget);
    LegalFills(b.m, ops);
    DoubleEntry.LedgerBalances(b.m, ops, u);
    Conservation.StocksConserved(b.m, ops);
  }
}
