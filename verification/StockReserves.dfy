/** Reserved stocks: in every run the ledger sets aside, for each user and stock, exactly what the
    user's open asks still offer, until a step deals in stocks that were never set aside or gives some up. */
module StockReserves {
  import opened Words
  import opened Orders
  import opened State
  import opened Accounts
  import opened Sums
  import opened Reservations
  import opened OrderLife
  import DoubleEntry
  import Taxes

  /** Stocks that rows set aside for a user's asks. */
  function SetAside(u: nat, s: nat): Transaction -> int {
    (t: Transaction) => if t.userId == u && t.stockId == s then t.reservedStockQuantity else 0
  }

  /** What an ask still offers. */
  function Offer(pm: ProgressMap, o: Order): int {
    var p := Look(pm, o);
    if o.id.side == BidSide || p.isClosed then 0 else o.quantity - p.fulfilled
  }

  function OfferedBy(u: nat, s: nat, pm: ProgressMap): Order -> int {
    (o: Order) => if o.userId == u && o.stockId == s then Offer(pm, o) else 0
  }

  ghost predicate StocksSetAside(m: Models) {
    forall u: nat, s: nat :: Sum(m.rows, SetAside(u, s)) == Sum(m.orders, OfferedBy(u, s, m.stored))
  }

  /** What a row sets aside, by user and stock. */
  function RowFor(u: nat, s: nat, owner: nat, stock: nat, q: int): int {
    if u == owner && s == stock then q else 0
  }

  /** The row of an ask and its objects agree as far as they must. */
  ghost predicate AskOk(m: Models, o: Order) {
    var p, s, e := Look(m.progress, o), Look(m.stored, o), EntryOf(m, o.id);
    && WellFilled(o, m.stored) && p.fulfilled == s.fulfilled
    && (!p.isClosed ==> e == Shared && !s.isClosed)
    && (e.Copy? && !e.copy.isClosed ==> e.copy.fulfilled == s.fulfilled < o.quantity)
  }

  ghost predicate AsksOk(m: Models) {
    && (forall o :: o in m.orders ==> o.id in m.progress && o.id in m.stored)
    && (forall o :: o in m.orders && o.id.side == AskSide ==> AskOk(m, o))
    && (forall i, j :: 0 <= i < j < |m.orders| ==> m.orders[i].id != m.orders[j].id)
  }

  // -------------------------------------------------------------------------
  // The three ways rows and orders change together
  // -------------------------------------------------------------------------

  /** Rows that set nothing aside, while no ask changes. */
  lemma NothingOffered(m: Models, m': Models, rows: seq<Transaction>)
    requires StocksSetAside(m) && m'.orders == m.orders && m'.rows == m.rows + rows
    requires forall t :: t in rows ==> t.reservedStockQuantity == 0
    requires forall o :: o in m.orders ==> Offer(m'.stored, o) == Offer(m.stored, o)
    ensures StocksSetAside(m')
  {
    forall u: nat, s: nat
      ensures Sum(m'.rows, SetAside(u, s)) == Sum(m'.orders, OfferedBy(u, s, m'.stored))
    {
      SumConcat(m.rows, rows, SetAside(u, s));
      SumZero(rows, SetAside(u, s));
      SumSame(m.orders, OfferedBy(u, s, m.stored), OfferedBy(u, s, m'.stored));
    }
  }

  /** One ask offers q less, and the rows set q less aside for it. */
  lemma OneOfferMoves(m: Models, m': Models, x: Order, rows: seq<Transaction>)
    requires AsksOk(m) && StocksSetAside(m) && x in m.orders
    requires m'.orders == m.orders && m'.rows == m.rows + rows
    requires forall y :: y in m.orders && y.id != x.id ==> Offer(m'.stored, y) == Offer(m.stored, y)
    requires forall u: nat, s: nat :: Sum(rows, SetAside(u, s))
               == RowFor(u, s, x.userId, x.stockId, Offer(m'.stored, x) - Offer(m.stored, x))
    ensures StocksSetAside(m')
  {
    var i :| 0 <= i < |m.orders| && m.orders[i] == x;
    forall u: nat, s: nat
      ensures Sum(m'.rows, SetAside(u, s)) == Sum(m'.orders, OfferedBy(u, s, m'.stored))
    {
      var w, w' := OfferedBy(u, s, m.stored), OfferedBy(u, s, m'.stored);
      forall j | 0 <= j < |m.orders| && j != i ensures w(m.orders[j]) == w'(m.orders[j]) {
        assert m.orders[j].id != x.id;
      }
      hide Offer;
      SumConcat(m.rows, rows, SetAside(u, s));
      SumChangesOne(m.orders, i, w, w');
    }
  }

  /** What is offered when one more order is recorded. */
  lemma OfferAdded(m: Models, m': Models, o: Order, u: nat, s: nat)
    requires m'.orders == m.orders + [o] && forall x :: x in m.orders ==> Offer(m'.stored, x) == Offer(m.stored, x)
    ensures Sum(m'.orders, OfferedBy(u, s, m'.stored))
            == Sum(m.orders, OfferedBy(u, s, m.stored)) + RowFor(u, s, o.userId, o.stockId, Offer(m'.stored, o))
  {
    var w, w' := OfferedBy(u, s, m.stored), OfferedBy(u, s, m'.stored);
    SumSame(m.orders, w, w');
    SumAppend(m.orders, o, w');
  }

  /** One more order is recorded, and the rows set aside what it offers. */
  lemma OfferJoins(m: Models, m': Models, o: Order, rows: seq<Transaction>)
    requires StocksSetAside(m) && m'.rows == m.rows + rows
    requires m'.orders == m.orders + [o] && forall x :: x in m.orders ==> Offer(m'.stored, x) == Offer(m.stored, x)
    requires forall u: nat, s: nat :: Sum(rows, SetAside(u, s))
               == RowFor(u, s, o.userId, o.stockId, Offer(m'.stored, o))
    ensures StocksSetAside(m')
  {
    forall u: nat, s: nat
      ensures Sum(m'.rows, SetAside(u, s)) == Sum(m'.orders, OfferedBy(u, s, m'.stored))
    {
      SumConcat(m.rows, rows, SetAside(u, s));
      OfferAdded(m, m', o, u, s);
    }
  }

  /** A fresh id belongs to no recorded order. */
  lemma FreshOffers(m: Models, m': Models, o: Order)
    requires AsksOk(m) && o.id !in m.progress && m'.stored == m.stored[o.id := Progress(0, false)]
    ensures forall x :: x in m.orders ==> Offer(m'.stored, x) == Offer(m.stored, x)
  {
  }

  /** The rows and the offers move apart. */
  lemma MovedApart(m: Models, m': Models, u: nat, s: nat, dRows: int, dOffers: int)
    requires StocksSetAside(m) && dRows != dOffers
    requires Sum(m'.rows, SetAside(u, s)) == Sum(m.rows, SetAside(u, s)) + dRows
    requires Sum(m'.orders, OfferedBy(u, s, m'.stored)) == Sum(m.orders, OfferedBy(u, s, m.stored)) + dOffers
    ensures !StocksSetAside(m')
  {
  }

  // -------------------------------------------------------------------------
  // Asks stay in order, whatever happens to bids
  // -------------------------------------------------------------------------

  lemma AsksKept(m: Models, m': Models)
    requires AsksOk(m) && m'.orders == m.orders && m.progress.Keys <= m'.progress.Keys && m.stored.Keys <= m'.stored.Keys
    requires forall z :: z in m.orders && z.id.side == AskSide ==> SameObjects(m, m', z) || AskOk(m', z)
    ensures AsksOk(m')
  {
    forall z | z in m'.orders && z.id.side == AskSide ensures AskOk(m', z) {
      assert AskOk(m, z);
    }
  }

  /** One more order is recorded; nothing else changes. */
  lemma AsksJoined(m: Models, m': Models, o: Order)
    requires AsksOk(m) && o.id !in m.stored && m'.orders == m.orders + [o] && o.id in m'.progress && o.id in m'.stored
    requires m.progress.Keys <= m'.progress.Keys && m.stored.Keys <= m'.stored.Keys
    requires forall z :: z in m.orders && z.id.side == AskSide ==> SameObjects(m, m', z)
    requires o.id.side == AskSide ==> AskOk(m', o)
    ensures AsksOk(m')
  {
    forall z | z in m'.orders && z.id.side == AskSide ensures AskOk(m', z) {
      if z in m.orders {
        assert AskOk(m, z);
      }
    }
    forall z | z in m.orders ensures z.id != o.id {}
  }

  lemma AskSameId(m: Models, x: Order, y: Order)
    requires AsksOk(m) && x in m.orders && y in m.orders && x.id == y.id
    ensures x == y
  {
    var i :| 0 <= i < |m.orders| && m.orders[i] == x;
    var j :| 0 <= j < |m.orders| && m.orders[j] == y;
  }

  lemma AddingAsksOk(m: Models, m': Models, o: Order)
    requires AsksOk(m) && Adds(m, m', o) && o.id !in m.progress && (m'.orders != m.orders ==> o.quantity > 0)
    ensures AsksOk(m')
  {
    forall z | z in m'.orders && z.id.side == AskSide ensures AskOk(m', z) {
      if z in m.orders {
        assert AskOk(m, z) && z.id != o.id;
      }
    }
    forall z | z in m.orders ensures z.id != o.id {}
  }

  lemma MatchesAsk(m: Models, a: Order)
    requires AsksOk(m) && (Known(m, a) || Foreign(m, a))
    ensures AskFits(m, a) && (Known(m, a) <==> a.id in m.stored)
  {
    if Known(m, a) {
      var x :| x in m.orders && (a == x || a == Triggered(x));
      forall z | z in m.orders && z.id == a.id ensures z == x {
        AskSameId(m, z, x);
      }
    } else {
      forall z | z in m.orders ensures z.id != a.id {}
    }
  }

  lemma TradeAsksOk(m: Models, a: Order, b: Order, price: nat, qty: nat, budget: nat)
    requires AsksOk(m) && Legal(m, FillOp(a, b, price, qty, budget)) && Fill(m, a, b, price, qty, budget).traded
    requires a.id in m.stored
    ensures AsksOk(Fill(m, a, b, price, qty, budget).m)
  {
    MatchesAsk(m, a);
    MatchesAsk(m, b);
    TradeShape(m, a, b, price, qty, budget);
    hide Fill, TradeRows, CashLeft, Known, Foreign, AsksOk, AskFits;
    TradedAsksOk(m, Fill(m, a, b, price, qty, budget).m, a, b, qty);
  }

  lemma NoTradeAsksOk(m: Models, a: Order, b: Order, price: nat, qty: nat, budget: nat)
    requires AsksOk(m) && Legal(m, FillOp(a, b, price, qty, budget)) && !Fill(m, a, b, price, qty, budget).traded
    ensures AsksOk(Fill(m, a, b, price, qty, budget).m)
  {
    hide Fill, AskOk, Known, AsksOk, AskFits, Look;
    var r := Fill(m, a, b, price, qty, budget);
    MatchesAsk(m, b);
    if r.bid == Done {
      BidClosedAsksOk(m, a, b, price, qty, budget);
    } else {
      NoFill(m, a, b, price, qty, budget);
      hide HalfCloses;
      forall z: Order | z.id.side == AskSide ensures SameObjects(m, r.m, z) {}
      AsksKept(m, r.m);
    }
  }

  lemma BidClosedAsksOk(m: Models, a: Order, b: Order, price: nat, qty: nat, budget: nat)
    requires AsksOk(m) && a.id.side == AskSide && b.id.side == BidSide && (b.id in m.deposits ==> b.id in m.stored)
    requires var r := Fill(m, a, b, price, qty, budget); !r.traded && r.bid == Done
    ensures AsksOk(Fill(m, a, b, price, qty, budget).m)
  {
    hide Fill, CashLeft, Refund, Refunded, RefundRow, AskOk, AsksOk;
    var m' := Fill(m, a, b, price, qty, budget).m;
    ClosedShape(m, a, b, price, qty, budget);
    forall z: Order | z.id.side == AskSide ensures SameObjects(m, m', z) {}
    AsksKept(m, m');
  }

  lemma TradedAsksOk(m: Models, m': Models, a: Order, b: Order, qty: nat)
    requires AsksOk(m) && AskFits(m, a) && a.id.side == AskSide && b.id.side == BidSide
    requires 0 < qty <= Unfulfilled(a, Look(m.progress, a)) && !Look(m.progress, a).isClosed
    requires m'.orders == m.orders && m'.entries == m.entries
    requires var ap, bp := FilledBy(a, Look(m.progress, a), qty), FilledBy(b, Look(m.progress, b), qty);
             m'.progress == m.progress[a.id := ap][b.id := bp] && m'.stored == m.stored[a.id := ap][b.id := bp]
    ensures AsksOk(m')
  {
    forall z | z in m.orders && z.id.side == AskSide ensures SameObjects(m, m', z) || AskOk(m', z) {
      assert AskOk(m, z);
    }
    AsksKept(m, m');
  }

  lemma CancelAsksOk(m: Models, u: nat, o: Order, budget: nat)
    requires AsksOk(m) && Legal(m, CancelOp(u, o, budget)) && !Unbacks(m, CancelOp(u, o, budget))
    ensures AsksOk(Accounts.Cancel(m, u, o, budget).m)
  {
    hide CancelOpen, Seen;
    if Findable(m, o) {
      if u in m.users && o.userId == u && !Seen(m, o).isClosed {
        if o in m.orders {
          OpenCancelAsksOk(m, o, budget);
        } else {
          CancelGuards(m, u, o, budget);
          ForeignCancelAsksOk(m, o, budget);
        }
      } else {
        LookedUpAsksOk(m, o);
      }
    }
  }

  lemma LookedUpAsksOk(m: Models, o: Order)
    requires AsksOk(m) && Findable(m, o) && (o in m.orders || Foreign(m, o))
    ensures AsksOk(LookedUp(m, o))
  {
    var m' := LookedUp(m, o);
    forall z | z in m.orders && z.id.side == AskSide ensures SameObjects(m, m', z) || AskOk(m', z) {
      assert AskOk(m, z);
    }
    AsksKept(m, m');
  }

  lemma OpenCancelAsksOk(m: Models, o: Order, budget: nat)
    requires AsksOk(m) && o in m.orders && o.userId in m.users && !Seen(m, o).isClosed
    ensures AsksOk(CancelOpen(m, o, budget).m)
  {
    var m' := CancelOpen(m, o, budget).m;
    CancelOpenShape(m, o, budget);
    hide CancelOpen;
    forall z | z in m.orders && z.id.side == AskSide ensures SameObjects(m, m', z) || AskOk(m', z) {
      assert AskOk(m, z);
      if z.id == o.id { AskSameId(m, z, o); }
    }
    AsksKept(m, m');
  }

  lemma ForeignCancelAsksOk(m: Models, o: Order, budget: nat)
    requires AsksOk(m) && Foreign(m, o) && !Seen(m, o).isClosed && CancelOpen(m, o, budget).error.Some?
    ensures AsksOk(CancelOpen(m, o, budget).m)
  {
    var m' := CancelOpen(m, o, budget).m;
    CancelOpenShape(m, o, budget);
    hide CancelOpen, AskOk, WellFilled;
    forall z | z in m.orders ensures SameObjects(m, m', z) {
      assert z.id != o.id;
    }
    AsksKept(m, m');
  }

  lemma WakeAsksOk(m: Models, o: Order, budget: nat)
    requires AsksOk(m) && Legal(m, WakeOp(o, budget)) && !Unbacks(m, WakeOp(o, budget))
    ensures AsksOk(Wake(m, o, budget > 0))
  {
    var m' := Wake(m, o, budget > 0);
    if o in m.orders {
      forall z | z in m.orders && z.id.side == AskSide ensures SameObjects(m, m', z) {
        assert AskOk(m, z);
      }
      AsksKept(m, m');
    } else if budget > 0 {
      forall z | z in m.orders ensures SameObjects(m, m', z) {
        assert z.id != o.id;
      }
      AsksJoined(m, m', o);
    }
  }

  lemma LeftAsksOk(m: Models, m': Models)
    requires AsksOk(m) && LeavesOrders(m, m')
    ensures AsksOk(m')
  {
    AsksKept(m, m');
  }

  lemma PlacedPositive(m: Models, o: Order, fee: nat, budget: nat)
    ensures PlaceBid(m, o, fee, budget).m.orders != m.orders ==> o.quantity > 0
    ensures PlaceAsk(m, o, fee, budget).m.orders != m.orders ==> o.quantity > 0
  {
    hide PriceError, OrderPrice, ShortSellQty, ActiveLends, Available, Wrap64, AskPlaced, BidPlaced;
  }

  lemma FillAsksOk(m: Models, a: Order, b: Order, price: nat, qty: nat, budget: nat)
    requires AsksOk(m) && Legal(m, FillOp(a, b, price, qty, budget)) && !Unbacks(m, FillOp(a, b, price, qty, budget))
    ensures AsksOk(Fill(m, a, b, price, qty, budget).m)
  {
    FillGuards(m, a, b, price, qty, budget);
    hide AsksOk, Known, Foreign, Fill, Trades, ClosesShort;
    if Fill(m, a, b, price, qty, budget).traded {
      TradeAsksOk(m, a, b, price, qty, budget);
    } else {
      NoTradeAsksOk(m, a, b, price, qty, budget);
    }
  }

  lemma StepAsksOk(m: Models, op: Op)
    requires AsksOk(m) && Legal(m, op) && !Unbacks(m, op)
    ensures AsksOk(Do(m, op))
  {
    hide PlaceBid, PlaceAsk, Fill, Accounts.Cancel, BuyFromExchange, PerformMortgage, SquareOff, Wake, AsksOk, Known, Foreign, Adds,
         LeavesOrders, Unbacks;
    match op
    case PlaceBidOp(o, fee, budget) =>
      BidAdds(m, o, fee, budget);
      PlacedPositive(m, o, fee, budget);
      AddingAsksOk(m, Do(m, op), o);
    case PlaceAskOp(o, fee, budget) =>
      AskAdds(m, o, fee, budget);
      PlacedPositive(m, o, fee, budget);
      AddingAsksOk(m, Do(m, op), o);
    case FillOp(a, b, price, qty, budget) => FillAsksOk(m, a, b, price, qty, budget);
    case CancelOp(u, o, budget) => CancelAsksOk(m, u, o, budget);
    case BuyOp(u, s, qty, budget) =>
      BuyLeavesOrders(m, u, s, qty, budget);
      LeftAsksOk(m, Do(m, op));
    case MortgageOp(u, s, qty, price, budget) =>
      MortgageLeavesOrders(m, u, s, qty, price, budget);
      LeftAsksOk(m, Do(m, op));
    case SquareOffOp(i) =>
      if i < |m.lends| {
        SquareOffLeavesOrders(m, i);
        LeftAsksOk(m, Do(m, op));
      }
    case WakeOp(o, budget) => WakeAsksOk(m, o, budget);
  }

  // -------------------------------------------------------------------------
  // Operations
  // -------------------------------------------------------------------------

  lemma BidSetsNothingAside(m: Models, o: Order, fee: nat, budget: nat)
    requires AsksOk(m) && StocksSetAside(m) && o.id.side == BidSide && o.id !in m.progress
    ensures StocksSetAside(PlaceBid(m, o, fee, budget).m)
  {
    var r := PlaceBid(m, o, fee, budget);
    if r.recorded {
      var reserve := o.quantity * OrderPrice(m, o);
      var rows := [Row(o.userId, o.stockId, OrderFee, 0, 0, 0, 0, 0 - fee),
                   Row(o.userId, o.stockId, PlaceOrder, 0, 0, 0, reserve, 0 - reserve)];
      hide BidError, OrderPrice, AsksOk, Wrap64;
      forall u: nat, s: nat ensures Sum(rows, SetAside(u, s)) == 0 { SumZero(rows, SetAside(u, s)); }
      FreshOffers(m, r.m, o);
      OfferJoins(m, r.m, o, rows);
    } else {
      hide BidError, AsksOk;
      NothingOffered(m, r.m, []);
    }
  }

  lemma AskSetsAside(m: Models, o: Order, fee: nat, budget: nat)
    requires AsksOk(m) && StocksSetAside(m) && o.id.side == AskSide && o.id !in m.progress
    ensures StocksSetAside(PlaceAsk(m, o, fee, budget).m)
  {
    var r := PlaceAsk(m, o, fee, budget);
    if r.recorded {
      var short := ShortSellQty(m, o);
      var r0 := Row(o.userId, o.stockId, OrderFee, 0, 0, 0, 0, 0 - fee);
      var r1 := Row(o.userId, o.stockId, PlaceOrder, o.quantity, 0 - o.quantity, 0, 0, 0);
      var lent := if short > 0 then [Row(o.userId, o.stockId, ShortSell, 0, short, CurrentPrice(m, o.stockId), 0, 0)] else [];
      assert r.m.rows == m.rows + ([r0] + lent + [r1]);
      AskPlacedIs(m, o, fee, short);
      hide AskError, ShortSellQty, AsksOk, AskPlaced, StocksSetAside;
      forall u: nat, s: nat
        ensures Sum([r0] + lent + [r1], SetAside(u, s)) == RowFor(u, s, o.userId, o.stockId, o.quantity)
      {
        DoubleEntry.LentRowsSum(r0, lent, r1, SetAside(u, s));
      }
      FreshOffers(m, r.m, o);
      OfferJoins(m, r.m, o, [r0] + lent + [r1]);
    } else {
      hide AskError, ShortSellQty, AsksOk;
      NothingOffered(m, r.m, []);
    }
  }

  lemma TradeRowsSetAside(a: Order, b: Order, p: Parties, reserved: int, price: nat, qty: nat, u: nat, s: nat)
    ensures Sum(TradeRows(a, b, p, reserved, price, qty), SetAside(u, s)) == RowFor(u, s, a.userId, a.stockId, 0 - qty)
  {
    DoubleEntry.TradeRowsSum(a, b, p, reserved, price, qty, SetAside(u, s));
    TaxSetsNothingAside(a.userId, a.stockId, AskTax(p, price, qty), u, s);
    TaxSetsNothingAside(b.userId, b.stockId, BidTax(p, price, qty), u, s);
    hide TradeRows, TaxRows, AskTax, BidTax, Portion, Sum;
  }

  /** A trade releases what it sells if and only if the ask was recorded. */
  lemma TradeSetsAsideIff(m: Models, a: Order, b: Order, price: nat, qty: nat, budget: nat)
    requires AsksOk(m) && StocksSetAside(m) && Legal(m, FillOp(a, b, price, qty, budget))
    requires Fill(m, a, b, price, qty, budget).traded
    ensures StocksSetAside(Fill(m, a, b, price, qty, budget).m) <==> a.id in m.stored
  {
    hide Fill, StocksSetAside, AsksOk, AskFits, CashLeft, TradeRows, AskTax, BidTax, Portion, Sum;
    MatchesAsk(m, a);
    MatchesAsk(m, b);
    TradeShape(m, a, b, price, qty, budget);
    var rows := TradeRows(a, b, PartiesOf(m, a, b), m.deposits[b.id], price, qty);
    forall u: nat, s: nat ensures Sum(rows, SetAside(u, s)) == RowFor(u, s, a.userId, a.stockId, 0 - qty) {
      TradeRowsSetAside(a, b, PartiesOf(m, a, b), m.deposits[b.id], price, qty, u, s);
    }
    if a.id in m.stored {
      KnownSold(m, a, b, price, qty, budget, rows);
    } else {
      ForeignSold(m, a, b, price, qty, budget, rows);
    }
  }

  lemma KnownSold(m: Models, a: Order, b: Order, price: nat, qty: nat, budget: nat, rows: seq<Transaction>)
    requires AsksOk(m) && StocksSetAside(m) && Known(m, a) && a.id in m.stored && b.id in m.stored
    requires a.id.side == AskSide && b.id.side == BidSide && qty <= Unfulfilled(a, Look(m.progress, a))
    requires Fill(m, a, b, price, qty, budget).traded && Fill(m, a, b, price, qty, budget).m.rows == m.rows + rows
    requires forall u: nat, s: nat :: Sum(rows, SetAside(u, s)) == RowFor(u, s, a.userId, a.stockId, 0 - qty)
    ensures StocksSetAside(Fill(m, a, b, price, qty, budget).m)
  {
    hide Fill, StocksSetAside, AsksOk, CashLeft, TradeRows, AskTax, BidTax, Portion, Sum;
    TradeShape(m, a, b, price, qty, budget);
    var x :| x in m.orders && (a == x || a == Triggered(x));
    KnownOfferMoves(m, Fill(m, a, b, price, qty, budget).m, a, b, x, rows, qty);
  }

  /** What an ask in no table sells was never set aside. */
  lemma ForeignSold(m: Models, a: Order, b: Order, price: nat, qty: nat, budget: nat, rows: seq<Transaction>)
    requires AsksOk(m) && StocksSetAside(m) && Legal(m, FillOp(a, b, price, qty, budget)) && Foreign(m, a) && b.id in m.stored
    requires Fill(m, a, b, price, qty, budget).traded && Fill(m, a, b, price, qty, budget).m.rows == m.rows + rows
    requires forall u: nat, s: nat :: Sum(rows, SetAside(u, s)) == RowFor(u, s, a.userId, a.stockId, 0 - qty)
    ensures !StocksSetAside(Fill(m, a, b, price, qty, budget).m)
  {
    hide Fill, TradeRows, CashLeft, Portion, AskTax, BidTax, StocksSetAside, AsksOk, Known;
    var m0 := Wake(m, a, true);
    TradeRecords(m, a, b, price, qty, budget);
    TradeShape(m0, a, b, price, qty, budget);
    RecordedSale(m, Fill(m, a, b, price, qty, budget).m, a, b, FilledBy(a, Look(m.progress, a), qty), FilledBy(b, Look(m.progress, b), qty),
                 rows, qty);
  }

  lemma RecordedSale(m: Models, m': Models, a: Order, b: Order, ap: Progress, bp: Progress, rows: seq<Transaction>, qty: nat)
    requires AsksOk(m) && StocksSetAside(m) && a.id !in m.stored && a.id.side == AskSide && b.id.side == BidSide
    requires m'.orders == m.orders + [a] && m'.rows == m.rows + rows && qty > 0 && ap.fulfilled <= a.quantity
    requires Look(m'.stored, a) == ap && forall z: Order :: z.id != a.id && z.id != b.id ==> Look(m'.stored, z) == Look(m.stored, z)
    requires forall u: nat, s: nat :: Sum(rows, SetAside(u, s)) == RowFor(u, s, a.userId, a.stockId, 0 - qty)
    ensures !StocksSetAside(m')
  {
    hide StocksSetAside;
    var u, s := a.userId, a.stockId;
    forall x | x in m.orders ensures Offer(m'.stored, x) == Offer(m.stored, x) {
      assert x.id in m.stored;
    }
    assert Offer(m'.stored, a) >= 0;
    hide AsksOk, Offer;
    OfferAdded(m, m', a, u, s);
    SumConcat(m.rows, rows, SetAside(u, s));
    assert Sum(rows, SetAside(u, s)) == 0 - qty;
    MovedApart(m, m', u, s, 0 - qty, Offer(m'.stored, a));
  }

  lemma KnownOfferMoves(m: Models, m': Models, a: Order, b: Order, x: Order, rows: seq<Transaction>, qty: nat)
    requires AsksOk(m) && StocksSetAside(m) && x in m.orders && (a == x || a == Triggered(x))
    requires a.id.side == AskSide && b.id.side == BidSide
    requires 0 < qty <= Unfulfilled(a, Look(m.progress, a)) && !Look(m.progress, a).isClosed
    requires m'.orders == m.orders && m'.rows == m.rows + rows
    requires Look(m'.stored, a) == FilledBy(a, Look(m.progress, a), qty)
    requires forall z: Order :: z.id != a.id && z.id != b.id ==> Look(m'.stored, z) == Look(m.stored, z)
    requires forall u: nat, s: nat :: Sum(rows, SetAside(u, s)) == RowFor(u, s, a.userId, a.stockId, 0 - qty)
    ensures StocksSetAside(m')
  {
    assert AskOk(m, x);
    hide StocksSetAside, Sum;
    OneOfferMoves(m, m', x, rows);
  }

  lemma TaxSetsNothingAside(owner: nat, stock: nat, tax: nat, u: nat, s: nat)
    ensures Sum(TaxRows(owner, stock, tax), SetAside(u, s)) == 0
  {
  }

  /** The step sells, or gives back, stocks that are not set aside, or offers some that are not, or gives up
      some that are: it trades or cancels an ask that is in no table, its placing having been rolled back;
      it cancels a copy of an ask whose row is closed; or it saves a woken ask that is in no table, or that
      is closed while its row is open. */
  ghost predicate Unbacks(m: Models, op: Op) {
    match op
    case FillOp(a, b, price, qty, budget) => a.id !in m.stored && Trades(m, a, b, price, qty, budget)
    case CancelOp(u, o, budget) =>
      o.id.side == AskSide && CancelSucceeds(m, u, o, budget) && (o.id !in m.stored || Look(m.stored, o).isClosed)
    case WakeOp(o, budget) =>
      && o.id.side == AskSide && budget > 0
      && if o.id in m.stored then Look(m.progress, o).isClosed && !Look(m.stored, o).isClosed
         else !Look(m.progress, o).isClosed
    case _ => false
  }

  lemma NoTradeSetsAside(m: Models, a: Order, b: Order, price: nat, qty: nat, budget: nat)
    requires StocksSetAside(m) && a.id != b.id && b.id.side == BidSide && !Fill(m, a, b, price, qty, budget).traded
    requires b.id in m.deposits ==> b.id in m.stored
    ensures StocksSetAside(Fill(m, a, b, price, qty, budget).m)
  {
    var r := Fill(m, a, b, price, qty, budget);
    if r.bid == Done {
      ClosedShape(m, a, b, price, qty, budget);
      hide Fill, CashLeft, StocksSetAside, Refund;
      NothingOffered(m, r.m, [RefundRow(b, Refund(b, Look(m.progress, b), m.deposits[b.id]))]);
    } else {
      NoFill(m, a, b, price, qty, budget);
      hide Fill, HalfCloses, StocksSetAside;
      NothingOffered(m, r.m, []);
    }
  }

  lemma FillSetsAsideIff(m: Models, a: Order, b: Order, price: nat, qty: nat, budget: nat)
    requires AsksOk(m) && StocksSetAside(m) && Legal(m, FillOp(a, b, price, qty, budget))
    ensures StocksSetAside(Fill(m, a, b, price, qty, budget).m) <==> !Unbacks(m, FillOp(a, b, price, qty, budget))
  {
    FillGuards(m, a, b, price, qty, budget);
    MatchesAsk(m, b);
    hide AsksOk, StocksSetAside, Known, Fill, AskFits, Trades, ClosesShort;
    if Fill(m, a, b, price, qty, budget).traded {
      TradeSetsAsideIff(m, a, b, price, qty, budget);
    } else {
      NoTradeSetsAside(m, a, b, price, qty, budget);
    }
  }

  lemma CancelSetsAsideIff(m: Models, userId: nat, o: Order, budget: nat)
    requires AsksOk(m) && StocksSetAside(m) && Legal(m, CancelOp(userId, o, budget))
    ensures StocksSetAside(Accounts.Cancel(m, userId, o, budget).m) <==> !Unbacks(m, CancelOp(userId, o, budget))
  {
    var r := Accounts.Cancel(m, userId, o, budget);
    CancelGuards(m, userId, o, budget);
    hide AsksOk, StocksSetAside, Seen, Refund, Unfulfilled, CancelSucceeds, Accounts.Cancel;
    if r.error.None? {
      CancelledSetsAsideIff(m, userId, o, budget);
    } else {
      DoubleEntry.FailedCancelKeeps(m, userId, o, budget);
      CancelFailsInMemory(m, userId, o, budget);
      NothingOffered(m, r.m, []);
    }
  }

  lemma CancelledSetsAsideIff(m: Models, userId: nat, o: Order, budget: nat)
    requires AsksOk(m) && StocksSetAside(m) && Legal(m, CancelOp(userId, o, budget))
    requires Accounts.Cancel(m, userId, o, budget).error.None?
    ensures StocksSetAside(Accounts.Cancel(m, userId, o, budget).m)
            <==> !(o.id.side == AskSide && (o.id !in m.stored || Look(m.stored, o).isClosed))
  {
    var r := Accounts.Cancel(m, userId, o, budget);
    assert Findable(m, o) && o.userId == userId && !Seen(m, o).isClosed && r == CancelOpen(m, o, budget);
    DoubleEntry.CancelRows(m, userId, o, budget);
    CancelOpenShape(m, o, budget);
    hide Accounts.Cancel, CancelOpen, StocksSetAside, Refund;
    if o.id.side == AskSide {
      assert o in m.orders <==> o.id in m.stored by {
        if o !in m.orders { assert Foreign(m, o); }
      }
      AskCancelledIff(m, r.m, o);
    } else {
      assert o in m.orders;
      hide AsksOk, Seen, Unfulfilled;
      NothingOffered(m, r.m, [RefundRow(o, Refund(o, Seen(m, o), m.deposits[o.id]))]);
    }
  }

  lemma CancelFailsInMemory(m: Models, userId: nat, o: Order, budget: nat)
    requires Accounts.Cancel(m, userId, o, budget).error.Some?
    ensures var m' := Accounts.Cancel(m, userId, o, budget).m; m'.stored == m.stored && m'.orders == m.orders
  {
    hide CancelOpen, Seen, LookedUp;
    if userId in m.users && Findable(m, o) && o.userId == userId && !Seen(m, o).isClosed {
      CancelOpenShape(m, o, budget);
    }
  }

  /** A cancellation gives back what was set aside if and only if the ask's row is there and open. */
  lemma AskCancelledIff(m: Models, m': Models, o: Order)
    requires AsksOk(m) && StocksSetAside(m) && o.id.side == AskSide && !Seen(m, o).isClosed
    requires if o.id in m.stored then o in m.orders && m'.orders == m.orders
             else Foreign(m, o) && EntryOf(m, o.id) == Shared && m'.orders == m.orders + [o]
    requires m'.stored == m.stored[o.id := Seen(m, o).(isClosed := true)]
    requires var q := Unfulfilled(o, Seen(m, o));
             m'.rows == m.rows + [Row(o.userId, o.stockId, CancelOrder, 0 - q, q, 0, 0, 0)]
    ensures StocksSetAside(m') <==> o.id in m.stored && !Look(m.stored, o).isClosed
  {
    var q: int := Unfulfilled(o, Seen(m, o));
    var t := Row(o.userId, o.stockId, CancelOrder, 0 - q, q, 0, 0, 0);
    var u, s := o.userId, o.stockId;
    hide StocksSetAside, Sum;
    forall u: nat, s: nat ensures Sum([t], SetAside(u, s)) == RowFor(u, s, o.userId, o.stockId, 0 - q) {
      DoubleEntry.OneRow(t, SetAside(u, s));
    }
    SumConcat(m.rows, [t], SetAside(u, s));
    if o.id !in m.stored {
      forall x | x in m.orders ensures Offer(m'.stored, x) == Offer(m.stored, x) {
        assert x.id in m.stored;
      }
      OfferAdded(m, m', o, u, s);
      assert q > 0;
      MovedApart(m, m', u, s, 0 - q, 0);
    } else {
      assert AskOk(m, o);
      forall x | x in m.orders && x.id == o.id ensures x == o { AskSameId(m, x, o); }
      if Look(m.stored, o).isClosed {
        SumSame(m.orders, OfferedBy(u, s, m.stored), OfferedBy(u, s, m'.stored));
        assert q > 0;
        MovedApart(m, m', u, s, 0 - q, 0);
      } else {
        OneOfferMoves(m, m', o, [t]);
      }
    }
  }

  /** Waking an ask moves no stocks: it is right if and only if its row offers after as before. */
  lemma WakeSetsAsideIff(m: Models, o: Order, budget: nat)
    requires AsksOk(m) && StocksSetAside(m) && Legal(m, WakeOp(o, budget))
    ensures StocksSetAside(Wake(m, o, budget > 0)) <==> !Unbacks(m, WakeOp(o, budget))
  {
    if budget > 0 {
      var m', u, s := Wake(m, o, true), o.userId, o.stockId;
      forall x | x in m.orders && x != o ensures Offer(m'.stored, x) == Offer(m.stored, x) {
        if o in m.orders && x.id == o.id { AskSameId(m, x, o); }
      }
      if o in m.orders {
        if o.id.side == AskSide { assert AskOk(m, o); }
        var i :| 0 <= i < |m.orders| && m.orders[i] == o;
        hide StocksSetAside, AsksOk, Sum;
        if Offer(m'.stored, o) == Offer(m.stored, o) {
          NothingOffered(m, m', []);
        } else {
          var w, w' := OfferedBy(u, s, m.stored), OfferedBy(u, s, m'.stored);
          IdsApart(m, i);
          SumChangesOne(m.orders, i, w, w');
          MovedApart(m, m', u, s, 0, Offer(m'.stored, o) - Offer(m.stored, o));
        }
      } else {
        hide StocksSetAside, AsksOk, Sum;
        if Offer(m'.stored, o) == 0 {
          forall u: nat, s: nat ensures Sum<Transaction>([], SetAside(u, s)) == 0 { SumZero([], SetAside(u, s)); }
          OfferJoins(m, m', o, []);
        } else {
          OfferAdded(m, m', o, u, s);
          MovedApart(m, m', u, s, 0, Offer(m'.stored, o));
        }
      }
    } else {
      hide StocksSetAside;
    }
  }

  lemma IdsApart(m: Models, i: nat)
    requires AsksOk(m) && i < |m.orders|
    ensures forall j :: 0 <= j < |m.orders| && j != i ==> m.orders[j] != m.orders[i]
  {
  }

  /** More rows that set nothing aside, and no order touched. */
  ghost predicate Unreserved(m: Models, m': Models) {
    && m'.orders == m.orders && m'.stored == m.stored && m.rows <= m'.rows
    && forall i :: |m.rows| <= i < |m'.rows| ==> m'.rows[i].reservedStockQuantity == 0
  }

  lemma UnreservedKeeps(m: Models, m': Models)
    requires StocksSetAside(m) && Unreserved(m, m')
    ensures StocksSetAside(m')
  {
    var rows := m'.rows[|m.rows|..];
    assert m'.rows == m.rows + rows;
    forall t | t in rows ensures t.reservedStockQuantity == 0 {
      var i :| 0 <= i < |rows| && rows[i] == t;
      assert t == m'.rows[|m.rows| + i];
    }
    NothingOffered(m, m', rows);
  }

  lemma BuyUnreserved(m: Models, u: nat, s: nat, qty: nat, budget: nat)
    ensures Unreserved(m, BuyFromExchange(m, u, s, qty, budget).m)
  {
    BuyLeavesOrders(m, u, s, qty, budget);
    if BuyFromExchange(m, u, s, qty, budget).error.None? {
      DoubleEntry.BuyWrote(m, u, s, qty, budget);
      hide Taxes.BuyTax, BoughtQty;
    }
    hide BuyFromExchange;
  }

  lemma RowUnreserved(m: Models, m': Models, t: Transaction)
    requires m'.orders == m.orders && m'.stored == m.stored && m'.rows == m.rows + [t] && t.reservedStockQuantity == 0
    ensures Unreserved(m, m')
  {
  }

  lemma SameUnreserved(m: Models)
    ensures Unreserved(m, m)
  {
  }

  lemma DepositUnreserved(m: Models, u: nat, s: nat, qty: nat)
    ensures Unreserved(m, Deposit(m, u, s, qty).m)
  {
    hide DepositAmount, StockCount, Wrap64, Unreserved;
    SameUnreserved(m);
    if Deposit(m, u, s, qty).error.None? {
      var p := CurrentPrice(m, s);
      RowUnreserved(m, Deposit(m, u, s, qty).m, Row(u, s, Mortgage, 0, 0 - qty, p, 0, DepositAmount(p, qty)));
    }
  }

  lemma RetrieveUnreserved(m: Models, u: nat, s: nat, qty: nat, price: nat)
    ensures Unreserved(m, Retrieve(m, u, s, qty, price).m)
  {
    hide RetrieveAmount, Wrap64, Unreserved;
    SameUnreserved(m);
    if Retrieve(m, u, s, qty, price).error.None? {
      RowUnreserved(m, Retrieve(m, u, s, qty, price).m, Row(u, s, Mortgage, 0, qty, price, 0, RetrieveAmount(price, qty)));
    }
  }

  lemma MortgageUnreserved(m: Models, u: nat, s: nat, qty: int, price: nat, budget: nat)
    ensures Unreserved(m, PerformMortgage(m, u, s, qty, price, budget).m)
  {
    if qty >= 0 {
      RetrieveUnreserved(m, u, s, qty, price);
    } else {
      DepositUnreserved(m, u, s, 0 - qty);
    }
    hide Retrieve, Deposit;
  }

  lemma SquareOffUnreserved(m: Models, i: nat)
    requires i < |m.lends|
    ensures Unreserved(m, SquareOff(m, i))
  {
    var l := m.lends[i];
    hide BankUpdated, Unreserved, Available, CurrentPrice;
    SameUnreserved(m);
    if !l.isSquaredOff {
      RowUnreserved(m, SquareOff(m, i),
                     Row(l.userId, l.stockId, ShortSell, 0, 0 - l.stockQuantity, CurrentPrice(m, l.stockId), 0, 0));
    }
  }

  lemma StepSetsAsideIff(m: Models, op: Op)
    requires AsksOk(m) && StocksSetAside(m) && Legal(m, op)
    ensures StocksSetAside(Do(m, op)) <==> !Unbacks(m, op)
  {
    hide PlaceBid, PlaceAsk, Fill, Accounts.Cancel, BuyFromExchange, PerformMortgage, SquareOff, StocksSetAside,
         Unreserved, Known, AsksOk, Foreign, Trades, CancelSucceeds, Wake;
    match op
    case PlaceBidOp(o, fee, budget) => BidSetsNothingAside(m, o, fee, budget);
    case PlaceAskOp(o, fee, budget) => AskSetsAside(m, o, fee, budget);
    case FillOp(a, b, price, qty, budget) => FillSetsAsideIff(m, a, b, price, qty, budget);
    case CancelOp(u, o, budget) => CancelSetsAsideIff(m, u, o, budget);
    case BuyOp(u, s, qty, budget) =>
      BuyUnreserved(m, u, s, qty, budget);
      UnreservedKeeps(m, Do(m, op));
    case MortgageOp(u, s, qty, price, budget) =>
      MortgageUnreserved(m, u, s, qty, price, budget);
      UnreservedKeeps(m, Do(m, op));
    case SquareOffOp(i) =>
      if i < |m.lends| {
        SquareOffUnreserved(m, i);
        UnreservedKeeps(m, Do(m, op));
      }
    case WakeOp(o, budget) => WakeSetsAsideIff(m, o, budget);
  }

  /** Every step of the run deals in stocks that are set aside. */
  ghost predicate AlwaysBacked(m: Models, ops: seq<Op>)
    decreases |ops|
  {
    ops != [] ==> !Unbacks(m, ops[0]) && AlwaysBacked(Do(m, ops[0]), ops[1..])
  }

  ghost predicate AlwaysSetAside(m: Models, ops: seq<Op>)
    decreases |ops|
  {
    StocksSetAside(m) && (ops != [] ==> AlwaysSetAside(Do(m, ops[0]), ops[1..]))
  }

  /** In every run, after every step, the stocks the ledger sets aside for a user are those their open
      asks still offer, if and only if no step deals in stocks that are not, or gives up some that are. */
  lemma {:induction false} SetAsideIsOpenAsks(m: Models, ops: seq<Op>)
    requires AsksOk(m) && StocksSetAside(m) && LegalOps(m, ops)
    ensures AlwaysSetAside(m, ops) <==> AlwaysBacked(m, ops)
    decreases |ops|
  {
    hide AsksOk, StocksSetAside, Legal, Do, Unbacks;
    if ops != [] {
      StepSetsAsideIff(m, ops[0]);
      if StocksSetAside(Do(m, ops[0])) {
        StepAsksOk(m, ops[0]);
        SetAsideIsOpenAsks(Do(m, ops[0]), ops[1..]);
      }
    }
  }

  /** An order in no table comes from a placing whose writes fail; cancellations find it if its own row had
      been written. */
  lemma UnrecordedIsForeign(m: Models, o: Order, fee: nat, budget: nat)
    requires o.id !in m.progress && o.id !in m.stored && o.id !in m.deposits
    ensures var r := if o.id.side == AskSide then PlaceAsk(m, o, fee, budget) else PlaceBid(m, o, fee, budget);
            r.error.None? && !r.recorded
            ==> Foreign(r.m, o) && !Look(r.m.progress, o).isClosed && (EntryOf(r.m, o.id) == Shared <==> budget > 0)
  {
    hide ShortSellQty, AskPlaced, BidPlaced, PriceError, OrderPrice, ActiveLends, Available;
  }

  /** Cancelling such an ask pays its user stocks that were never set aside. */
  lemma UnrecordedCancelPays(m: Models, o: Order, fee: nat, budget: nat, writes: nat)
    requires o.id.side == AskSide && o.id !in m.progress && o.id !in m.stored && o.id !in m.deposits
    requires var r := PlaceAsk(m, o, fee, budget); r.error.None? && !r.recorded
    requires budget > 0 && writes >= CancelWrites(AskSide)
    ensures var m1 := PlaceAsk(m, o, fee, budget).m; var r := Accounts.Cancel(m1, o.userId, o, writes);
            && r.error.None? && r.m.users == m.users
            && StockCount(r.m, o.userId, o.stockId) == StockCount(m, o.userId, o.stockId) + o.quantity
  {
    var m1 := PlaceAsk(m, o, fee, budget).m;
    UnrecordedIsForeign(m, o, fee, budget);
    assert m1 == Unrecorded(m, o, budget) && o.quantity > 0;
    hide PlaceAsk, Accounts.Cancel;
    CancelGuards(m1, o.userId, o, writes);
    DoubleEntry.CancelRows(m1, o.userId, o, writes);
    var q: int := Unfulfilled(o, Seen(m1, o));
    assert q == o.quantity;
    SumAppend(m1.rows, Row(o.userId, o.stockId, CancelOrder, 0 - q, q, 0, 0, 0), StocksOf(o.userId, o.stockId));
  }

  /** It stays one until a trade, a cancellation or its waking records it. */
  lemma ForeignStays(m: Models, op: Op, o: Order)
    requires Legal(m, op) && Foreign(m, o) && forall z :: z in m.orders ==> z.id in m.stored
    ensures var m' := Do(m, op); Foreign(m', o) || o.id in m'.stored
  {
    hide PlaceBid, PlaceAsk, Fill, Accounts.Cancel, BuyFromExchange, PerformMortgage, SquareOff, Known;
    match op
    case PlaceBidOp(x, fee, budget) =>
      BidAdds(m, x, fee, budget);
      PlacingDeposits(m, x, fee, budget);
    case PlaceAskOp(x, fee, budget) =>
      AskAdds(m, x, fee, budget);
      PlacingDeposits(m, x, fee, budget);
    case FillOp(a, b, price, qty, budget) => ForeignFilled(m, a, b, price, qty, budget, o);
    case CancelOp(u, x, budget) => ForeignSought(m, u, x, budget, o);
    case BuyOp(u, s, qty, budget) => BuyLeavesOrders(m, u, s, qty, budget);
    case MortgageOp(u, s, qty, price, budget) => MortgageLeavesOrders(m, u, s, qty, price, budget);
    case SquareOffOp(i) => if i < |m.lends| { SquareOffLeavesOrders(m, i); }
    case WakeOp(x, budget) =>
  }

  lemma PlacingDeposits(m: Models, x: Order, fee: nat, budget: nat)
    ensures PlaceBid(m, x, fee, budget).m.deposits.Keys <= m.deposits.Keys + {x.id}
    ensures PlaceAsk(m, x, fee, budget).m.deposits == m.deposits
  {
    hide PlaceBid, PlaceAsk;
    BidDeposits(m, x, fee, budget);
    AskDeposits(m, x, fee, budget);
  }

  lemma BidDeposits(m: Models, x: Order, fee: nat, budget: nat)
    ensures PlaceBid(m, x, fee, budget).m.deposits.Keys <= m.deposits.Keys + {x.id}
  {
    hide PriceError, OrderPrice, Wrap64, Row;
  }

  lemma AskDeposits(m: Models, x: Order, fee: nat, budget: nat)
    ensures PlaceAsk(m, x, fee, budget).m.deposits == m.deposits
  {
    hide PriceError, ShortSellQty, ActiveLends, Available, AskPlaced, Wrap64;
    if PlaceAsk(m, x, fee, budget).recorded {
      AskPlacedIs(m, x, fee, ShortSellQty(m, x));
    }
  }

  lemma ForeignFilled(m: Models, a: Order, b: Order, price: nat, qty: nat, budget: nat, o: Order)
    requires Foreign(m, o) && a.id != b.id
    ensures var m' := Fill(m, a, b, price, qty, budget).m; Foreign(m', o) || o.id in m'.stored
  {
    hide Fill, Foreign;
    var r := Fill(m, a, b, price, qty, budget);
    if r.traded {
      ForeignTraded(m, a, b, price, qty, budget, o);
    } else if r.bid == Done {
      ForeignClosed(m, a, b, price, qty, budget, o);
    } else {
      NoFill(m, a, b, price, qty, budget);
      ForeignLost(m, b.id, o);
      hide HalfCloses;
    }
  }

  lemma ForeignLost(m: Models, id: OrderId, o: Order)
    requires Foreign(m, o)
    ensures Foreign(m.(entries := m.entries[id := Missing]), o)
  {
  }

  lemma ForeignTraded(m: Models, a: Order, b: Order, price: nat, qty: nat, budget: nat, o: Order)
    requires Foreign(m, o) && Fill(m, a, b, price, qty, budget).traded
    ensures var m' := Fill(m, a, b, price, qty, budget).m; Foreign(m', o) || o.id in m'.stored
  {
    hide Fill, CashLeft, TradeRows, Portion, AskTax, BidTax, Unfulfilled, FilledBy, Max0, Wrap64;
    TradeShape(m, a, b, price, qty, budget);
  }

  lemma ForeignClosed(m: Models, a: Order, b: Order, price: nat, qty: nat, budget: nat, o: Order)
    requires Foreign(m, o) && a.id != b.id
    requires var r := Fill(m, a, b, price, qty, budget); !r.traded && r.bid == Done
    ensures var m' := Fill(m, a, b, price, qty, budget).m; Foreign(m', o) || o.id in m'.stored
  {
    hide Fill, CashLeft, Refund, Refunded, RefundRow;
    ClosedShape(m, a, b, price, qty, budget);
  }

  lemma ForeignSought(m: Models, u: nat, x: Order, budget: nat, o: Order)
    requires Foreign(m, o) && (Findable(m, x) ==> x in m.orders || Foreign(m, x))
    requires forall z :: z in m.orders ==> z.id in m.stored
    ensures var m' := Accounts.Cancel(m, u, x, budget).m; Foreign(m', o) || o.id in m'.stored
  {
    hide CancelOpen;
    if u in m.users && Findable(m, x) && x.userId == u && !Seen(m, x).isClosed {
      assert x.id == o.id ==> EntryOf(m, x.id) == Shared;
      CancelOpenShape(m, x, budget);
      hide Seen, Findable, LookedUp;
    } else {
      assert Findable(m, x) && x.id == o.id ==> EntryOf(m, x.id) == Shared;
      hide Seen, Findable;
    }
  }

  lemma ForeignBidNeverTrades(m: Models, a: Order, b: Order, price: nat, qty: nat, budget: nat)
    requires Foreign(m, b)
    ensures !Fill(m, a, b, price, qty, budget).traded && Fill(m, a, b, price, qty, budget).m.users == m.users
            && Fill(m, a, b, price, qty, budget).m.rows == m.rows
  {
    hide CashLeft, TradeRows, Traded, StockAfterTrade, Refund;
  }
}
