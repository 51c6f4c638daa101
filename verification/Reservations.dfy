/** Reserved cash: in every run it is exactly what the open bids still need, so the clamps and
    wrap-arounds that could lose a unit are never reached; the exceptions, steps on an order whose objects
    and row have come apart, are characterised exactly. */
module Reservations {
  import opened Words
  import opened Orders
  import opened State
  import opened Accounts
  import opened Sums
  import opened Taxes
  import Stocks

  type Deposits = map<OrderId, int>

  /** Cash reserved for each stock of a bid. */
  function Unit(ds: Deposits, o: Order): int {
    if o.id in ds && o.quantity > 0 then ds[o.id] / o.quantity else 0
  }

  /** What a bid still has in reserve. */
  function Held(ds: Deposits, pm: ProgressMap, o: Order): int {
    var p := Look(pm, o);
    if o.id.side == AskSide || p.isClosed then 0 else Unit(ds, o) * (o.quantity - p.fulfilled)
  }

  function HeldBy(u: nat, ds: Deposits, pm: ProgressMap): Order -> int {
    (o: Order) => if o.userId == u then Held(ds, pm, o) else 0
  }

  /** While an order is open in the queue, cancellations find that same object and its row is open too;
      another open copy is up to date. */
  ghost predicate Attached(m: Models, o: Order) {
    var p, s, e := Look(m.progress, o), Look(m.stored, o), EntryOf(m, o.id);
    && (!p.isClosed ==> e == Shared && !s.isClosed)
    && (e.Copy? && !e.copy.isClosed ==> e.copy == s)
  }

  /** The row, the object in the queue and the one in the map of an order agree as far as they must: they
      can differ in whether the order is closed, and an open stray copy can be behind. */
  ghost predicate Linked(m: Models, o: Order) {
    var p, s, e := Look(m.progress, o), Look(m.stored, o), EntryOf(m, o.id);
    && p.fulfilled == s.fulfilled
    && (!p.isClosed ==> p.fulfilled < o.quantity)
    && (!p.isClosed && s.isClosed ==> e != Shared)
    && (e.Copy? && !e.copy.isClosed ==> e.copy.fulfilled <= s.fulfilled && e.copy.fulfilled < o.quantity)
  }

  /** A bid holds its price for each stock; one whose placing was rolled back has no deposit. */
  ghost predicate OrderOk(m: Models, o: Order) {
    && o.quantity > 0 && o.userId in m.users && o.id in m.progress && o.id in m.stored
    && WellFilled(o, m.stored) && Linked(m, o)
    && (o.id.side == BidSide && o.id in m.deposits ==>
          && 0 <= m.deposits[o.id] == Unit(m.deposits, o) * o.quantity < TWO_63
          && (o.oType != Market ==> Unit(m.deposits, o) == o.price))
  }

  ghost predicate OrdersOk(m: Models) {
    && (forall o :: o in m.orders ==> OrderOk(m, o))
    && (forall i, j :: 0 <= i < j < |m.orders| ==> m.orders[i].id != m.orders[j].id)
  }

  /** Each user's reserved cash is the sum of what their open bids still need. */
  ghost predicate Reserved(m: Models) {
    forall u :: u in m.users ==> m.users[u].reservedCash == Sum(m.orders, HeldBy(u, m.deposits, m.stored))
  }

  /** Cash is held in unsigned 64-bit words. */
  ghost predicate InWords(m: Models) {
    forall u :: u in m.users ==> 0 <= m.users[u].cash < TWO_64
  }

  ghost predicate Booked(m: Models) {
    OrdersOk(m) && Reserved(m) && InWords(m)
  }

  /** o is a recorded order, perhaps a stop-loss triggered since. */
  ghost predicate Known(m: Models, o: Order) {
    exists x :: x in m.orders && (o == x || o == Triggered(x))
  }

  /** o was handed to the matcher although its placing had been rolled back, and nothing has recorded it
      since. */
  ghost predicate Foreign(m: Models, o: Order) {
    && o.id !in m.stored && o.id !in m.deposits && o.id in m.progress
    && o.quantity > 0 && o.userId in m.users && WellFilled(o, m.progress) && !EntryOf(m, o.id).Copy?
  }

  /** What the callers guarantee: the database gives new ids; the matcher fills orders it was handed,
      within their quantities and, for limit orders, within their prices, and wakes stop-losses it was
      handed; what a cancellation finds in the map without a row is an order whose placing was rolled
      back. */
  ghost predicate Legal(m: Models, op: Op) {
    match op
    case PlaceBidOp(o, _, _) => o.id.side == BidSide && o.id !in m.progress
    case PlaceAskOp(o, _, _) => o.id.side == AskSide && o.id !in m.progress
    case FillOp(a, b, price, qty, _) =>
      && (Known(m, a) || Foreign(m, a)) && (Known(m, b) || Foreign(m, b))
      && a.id.side == AskSide && b.id.side == BidSide && a.stockId == b.stockId
      && qty <= Unfulfilled(a, Look(m.progress, a)) && qty <= Unfulfilled(b, Look(m.progress, b))
      && (!IsMarket(b.oType) ==> price <= b.price)
    case CancelOp(_, o, _) => Findable(m, o) ==> o in m.orders || Foreign(m, o)
    case WakeOp(o, _) => o.oType == StopLoss && (o in m.orders || Foreign(m, o))
    case _ => true
  }

  ghost predicate LegalOps(m: Models, ops: seq<Op>)
    decreases |ops|
  {
    ops != [] ==> Legal(m, ops[0]) && LegalOps(Do(m, ops[0]), ops[1..])
  }

  // -------------------------------------------------------------------------
  // Arithmetic of one reservation
  // -------------------------------------------------------------------------

  /** A portion of an evenly divided reservation is exact. */
  lemma PortionExact(unit: int, part: nat, whole: nat)
    requires whole > 0
    ensures Portion(unit * whole, part, whole) == unit * part
  {
    assert unit * whole * part == (unit * part) * whole;
    Quotient(unit * part, whole);
  }

  lemma Quotient(n: int, d: nat)
    requires d > 0
    ensures n * d / d == n
  {
    var a := n * d;
    var k := n - a / d;
    assert k * d == a % d;
    if k > 0 {
      AtLeastOne(k, d);
    } else if k < 0 {
      AtLeastOne(0 - k, d);
    }
  }

  lemma AtLeastOne(k: int, d: nat)
    requires k > 0
    ensures k * d >= d
  {
    assert k * d == (k - 1) * d + d;
  }

  /** No bid holds a negative amount, so none holds more than its user has in reserve. */
  lemma ReserveCovers(m: Models, x: Order)
    requires Booked(m) && x in m.orders
    ensures 0 <= Held(m.deposits, m.stored, x) <= m.users[x.userId].reservedCash
  {
    var w := HeldBy(x.userId, m.deposits, m.stored);
    forall y | y in m.orders ensures 0 <= Held(m.deposits, m.stored, y) && 0 <= w(y) {
      HeldNonNegative(m, y);
    }
    SumAtLeast(m.orders, x, w);
    assert OrderOk(m, x);
  }

  lemma HeldNonNegative(m: Models, y: Order)
    requires OrderOk(m, y)
    ensures 0 <= Held(m.deposits, m.stored, y)
  {
    if y.id.side == BidSide {
      UnitNonNegative(Unit(m.deposits, y), y.quantity);
    }
  }

  lemma UnitNonNegative(unit: int, quantity: nat)
    requires quantity > 0 && 0 <= unit * quantity
    ensures 0 <= unit
  {
  }

  /** One bid's holding and its user's reserve change by the same amount; nothing else moves. */
  lemma OneHoldingMoves(m: Models, m': Models, x: Order)
    requires Booked(m) && x in m.orders
    requires m'.orders == m.orders && m'.deposits == m.deposits && m'.users.Keys == m.users.Keys
    requires forall y :: y in m.orders && y.id != x.id
                         ==> Held(m.deposits, m'.stored, y) == Held(m.deposits, m.stored, y)
    requires forall u :: u in m.users && u != x.userId ==> m'.users[u].reservedCash == m.users[u].reservedCash
    requires x.userId in m.users
    requires m'.users[x.userId].reservedCash - m.users[x.userId].reservedCash
             == Held(m.deposits, m'.stored, x) - Held(m.deposits, m.stored, x)
    ensures Reserved(m')
  {
    var i :| 0 <= i < |m.orders| && m.orders[i] == x;
    forall u | u in m'.users
      ensures m'.users[u].reservedCash == Sum(m'.orders, HeldBy(u, m'.deposits, m'.stored))
    {
      var w, w' := HeldBy(u, m.deposits, m.stored), HeldBy(u, m.deposits, m'.stored);
      forall j | 0 <= j < |m.orders| && j != i ensures w(m.orders[j]) == w'(m.orders[j]) {
        assert m.orders[j].id != x.id;
      }
      hide Held;
      SumChangesOne(m.orders, i, w, w');
    }
  }

  // -------------------------------------------------------------------------
  // Placing
  // -------------------------------------------------------------------------

  ghost predicate SameDeposit(m: Models, m': Models, x: Order) {
    (x.id in m.deposits <==> x.id in m'.deposits) && (x.id in m.deposits ==> m'.deposits[x.id] == m.deposits[x.id])
  }

  /** A new order joins; what it holds is added to its user's reserve. */
  lemma NewOrderJoins(m: Models, m': Models, o: Order)
    requires Booked(m) && o.id !in m.progress
    requires m'.orders == m.orders + [o] && m'.progress == m.progress[o.id := Progress(0, false)]
    requires m'.stored == m.stored[o.id := Progress(0, false)] && m'.entries == m.entries[o.id := Shared]
    requires forall x :: x in m.orders ==> SameDeposit(m, m', x)
    requires m'.users.Keys == m.users.Keys && OrderOk(m', o)
    requires forall u :: u in m.users && u != o.userId ==> m'.users[u].reservedCash == m.users[u].reservedCash
    requires m'.users[o.userId].reservedCash - m.users[o.userId].reservedCash == Held(m'.deposits, m'.stored, o)
    requires InWords(m')
    ensures Booked(m')
  {
    hide OrderOk, Held, InWords, Unit;
    NewOrderOk(m, m', o);
    hide OrdersOk;
    forall u | u in m'.users
      ensures m'.users[u].reservedCash == Sum(m'.orders, HeldBy(u, m'.deposits, m'.stored))
    {
      NewHolding(m, m', o, u);
    }
  }

  lemma NewOrderOk(m: Models, m': Models, o: Order)
    requires OrdersOk(m) && o.id !in m.progress
    requires m'.orders == m.orders + [o] && m'.progress == m.progress[o.id := Progress(0, false)]
    requires m'.stored == m.stored[o.id := Progress(0, false)] && m'.entries == m.entries[o.id := Shared]
    requires forall x :: x in m.orders ==> SameDeposit(m, m', x)
    requires m'.users.Keys == m.users.Keys && OrderOk(m', o)
    ensures OrdersOk(m')
  {
    forall x | x in m.orders ensures OrderOk(m', x) && x.id != o.id {
      assert OrderOk(m, x);
    }
  }

  lemma NewHolding(m: Models, m': Models, o: Order, u: nat)
    requires OrdersOk(m) && o.id !in m.progress
    requires m'.orders == m.orders + [o] && m'.stored == m.stored[o.id := Progress(0, false)]
    requires forall x :: x in m.orders ==> SameDeposit(m, m', x)
    ensures Sum(m'.orders, HeldBy(u, m'.deposits, m'.stored))
            == Sum(m.orders, HeldBy(u, m.deposits, m.stored)) + if u == o.userId then Held(m'.deposits, m'.stored, o) else 0
  {
    var w, w' := HeldBy(u, m.deposits, m.stored), HeldBy(u, m'.deposits, m'.stored);
    forall x | x in m.orders ensures w(x) == w'(x) {
      assert OrderOk(m, x);
    }
    SumSame(m.orders, w, w');
    SumAppend(m.orders, o, w');
  }

  lemma PlaceBidBooked(m: Models, o: Order, fee: nat, budget: nat)
    requires Booked(m) && o.id.side == BidSide && o.id !in m.progress
    ensures Booked(PlaceBid(m, o, fee, budget).m)
  {
    var r := PlaceBid(m, o, fee, budget);
    if r.recorded {
      Quotient(OrderPrice(m, o), o.quantity);
      hide BidError, Sum;
      assert Unit(r.m.deposits, o) == OrderPrice(m, o);
      NewOrderJoins(m, r.m, o);
    } else {
      UnrecordedBooked(m, o, budget);
    }
  }

  lemma PlaceBidOrdersOk(m: Models, o: Order, fee: nat, budget: nat)
    requires OrdersOk(m) && InWords(m) && o.id.side == BidSide && o.id !in m.progress
    ensures OrdersOk(PlaceBid(m, o, fee, budget).m)
  {
    var r := PlaceBid(m, o, fee, budget);
    if r.recorded {
      Quotient(OrderPrice(m, o), o.quantity);
      hide OrdersOk;
      assert Unit(r.m.deposits, o) == OrderPrice(m, o);
      NewOrderOk(m, r.m, o);
    } else {
      UnrecordedBooked(m, o, budget);
    }
  }

  lemma PlaceAskOrdersOk(m: Models, o: Order, fee: nat, budget: nat)
    requires OrdersOk(m) && o.id.side == AskSide && o.id !in m.progress
    ensures OrdersOk(PlaceAsk(m, o, fee, budget).m)
  {
    var r := PlaceAsk(m, o, fee, budget);
    if r.recorded {
      AskPlacedIs(m, o, fee, ShortSellQty(m, o));
      hide AskPlaced, ShortSellQty, OrdersOk;
      NewOrderOk(m, r.m, o);
    } else {
      UnrecordedBooked(m, o, budget);
    }
  }

  lemma PlaceAskBooked(m: Models, o: Order, fee: nat, budget: nat)
    requires Booked(m) && o.id.side == AskSide && o.id !in m.progress
    ensures Booked(PlaceAsk(m, o, fee, budget).m)
  {
    var r := PlaceAsk(m, o, fee, budget);
    if r.recorded {
      AskPlacedIs(m, o, fee, ShortSellQty(m, o));
      assert OrderOk(r.m, o);
      hide Sum, AskPlaced, AskError, ShortSellQty, OrderOk, Reserved;
      NewOrderJoins(m, r.m, o);
    } else {
      UnrecordedBooked(m, o, budget);
    }
  }

  lemma AskPlacedIs(m: Models, o: Order, fee: nat, short: int)
    requires o.userId in m.users
    ensures var r := AskPlaced(m, o, fee, short);
            && r.orders == m.orders + [o] && r.progress == m.progress[o.id := Progress(0, false)]
            && r.stored == m.stored[o.id := Progress(0, false)] && r.entries == m.entries[o.id := Shared]
            && r.deposits == m.deposits && r.summaries == m.summaries
            && r.users == m.users[o.userId := m.users[o.userId].(cash := Wrap64(m.users[o.userId].cash - fee))]
  {
    hide BankUpdated, Negate32, Wrap64;
  }

  /** An object left behind by a placing that was rolled back concerns no recorded order. */
  lemma UnrecordedBooked(m: Models, o: Order, budget: nat)
    requires OrdersOk(m) && o.id !in m.progress
    ensures OrdersOk(Unrecorded(m, o, budget)) && (Booked(m) ==> Booked(Unrecorded(m, o, budget)))
  {
    var m' := Unrecorded(m, o, budget);
    forall x | x in m.orders ensures OrderOk(m', x) {
      assert OrderOk(m, x);
    }
  }

  // -------------------------------------------------------------------------
  // Filling
  // -------------------------------------------------------------------------

  lemma OrdersKept(m: Models, m': Models)
    requires OrdersOk(m) && m'.orders == m.orders && m'.deposits == m.deposits && m'.users.Keys == m.users.Keys
    requires m.progress.Keys <= m'.progress.Keys && m.stored.Keys <= m'.stored.Keys
    requires forall x :: x in m.orders ==> WellFilled(x, m'.stored) && Linked(m', x)
    ensures OrdersOk(m')
  {
    forall x | x in m.orders ensures OrderOk(m', x) {
      assert OrderOk(m, x);
    }
  }

  lemma SameId(m: Models, x: Order, y: Order)
    requires OrdersOk(m) && x in m.orders && y in m.orders && x.id == y.id
    ensures x == y
  {
    var i :| 0 <= i < |m.orders| && m.orders[i] == x;
    var j :| 0 <= j < |m.orders| && m.orders[j] == y;
  }

  /** The order in the queue is open although its row says closed. */
  ghost predicate Apart(m: Models, o: Order) {
    !Look(m.progress, o).isClosed && Look(m.stored, o).isClosed
  }

  /** b is the recorded bid y, triggered or not. */
  ghost predicate SameBid(m: Models, b: Order, y: Order) {
    && y in m.orders && OrderOk(m, y) && y.id == b.id && y.quantity == b.quantity && y.userId == b.userId
    && y.id.side == BidSide && y.id in m.deposits && (b.oType == Limit ==> b == y)
  }

  lemma BidFound(m: Models, b: Order) returns (y: Order)
    requires OrdersOk(m) && Known(m, b) && b.id.side == BidSide && b.id in m.deposits
    ensures SameBid(m, b, y) && Look(m.progress, b) == Look(m.progress, y) && Look(m.stored, b) == Look(m.stored, y)
    ensures Unit(m.deposits, b) == Unit(m.deposits, y)
  {
    y :| y in m.orders && (b == y || b == Triggered(y));
  }

  /** CancelOrder finds an open order of the user, and everything can be written. */
  ghost predicate CancelSucceeds(m: Models, u: nat, o: Order, budget: nat) {
    && u in m.users && Findable(m, o) && o.userId == u && !Seen(m, o).isClosed
    && budget >= CancelWrites(o.id.side) && (o.id.side == BidSide ==> o.id in m.deposits)
  }

  lemma CancelGuards(m: Models, u: nat, o: Order, budget: nat)
    ensures Accounts.Cancel(m, u, o, budget).error.None? <==> CancelSucceeds(m, u, o, budget)
  {
    hide LookedUp, Seen, MarkedClosed, TakenOut, Released;
  }

  /** The cancellation writes an old copy, less filled, over the order's row. */
  ghost predicate Outdates(m: Models, op: Op) {
    && op.CancelOp? && CancelSucceeds(m, op.userId, op.o, op.budget)
    && EntryOf(m, op.o.id).Copy? && EntryOf(m, op.o.id).copy.fulfilled != Look(m.stored, op.o).fulfilled
  }

  /** The step takes or returns a reservation that has been returned before, or returns one that has partly
      been spent, or gives one up: a fill acts on a bid in the queue whose row is closed; a cancellation
      acts on a copy when the row has been filled or closed since; or a bid is woken, and saved, whose
      object is closed and its row open, or the other way round. */
  ghost predicate Misbooks(m: Models, op: Op) {
    match op
    case FillOp(a, b, price, qty, budget) =>
      && Apart(m, b) && Unit(m.deposits, b) > 0
      && (ClosesShort(m, a, b, price, qty, budget)
          || (Trades(m, a, b, price, qty, budget)
              && (qty < Unfulfilled(b, Look(m.progress, b)) || m.users[b.userId].reservedCash != 0)))
    case CancelOp(u, o, budget) =>
      || Outdates(m, op)
      || (CancelSucceeds(m, u, o, budget) && EntryOf(m, o.id).Copy? && Look(m.stored, o).isClosed
          && o.id.side == BidSide && Unit(m.deposits, o) > 0)
    case WakeOp(o, budget) =>
      && budget > 0 && o.id.side == BidSide && Unit(m.deposits, o) > 0
      && Look(m.progress, o).isClosed != Look(m.stored, o).isClosed
    case _ => false
  }

  /** No recorded order with the ask's id has another quantity or another user. */
  ghost predicate AskFits(m: Models, a: Order) {
    forall z :: z in m.orders && z.id == a.id ==> z.quantity == a.quantity && z.userId == a.userId && z.stockId == a.stockId
  }

  lemma AskFound(m: Models, a: Order)
    requires OrdersOk(m) && (Known(m, a) || Foreign(m, a))
    ensures AskFits(m, a) && (Known(m, a) ==> a.id in m.stored)
  {
    if Known(m, a) {
      var x :| x in m.orders && (a == x || a == Triggered(x));
      assert OrderOk(m, x);
      forall z | z in m.orders && z.id == a.id ensures z == x {
        SameId(m, z, x);
      }
    } else {
      forall z | z in m.orders ensures z.id != a.id { assert OrderOk(m, z); }
    }
  }

  /** What refunding a bid at progress p pays. */
  lemma RefundIs(m: Models, b: Order, y: Order, p: Progress)
    requires SameBid(m, b, y) && p.fulfilled <= y.quantity
    ensures var r, unit := Refund(b, p, m.deposits[b.id]), Unit(m.deposits, y);
            0 <= unit && 0 <= r == unit * (y.quantity - p.fulfilled) <= m.deposits[b.id] < TWO_63
  {
    var unit, n := Unit(m.deposits, y), y.quantity - p.fulfilled;
    PortionExact(unit, n, y.quantity);
    UnitNonNegative(unit, y.quantity);
    SplitProduct(unit, y.quantity, n);
  }

  /** What a trade takes from the buyer's reserve. */
  lemma PartIs(m: Models, b: Order, y: Order, qty: nat)
    requires SameBid(m, b, y) && qty <= y.quantity - Look(m.stored, y).fulfilled
    ensures var part, unit, left := Portion(m.deposits[b.id], qty, b.quantity), Unit(m.deposits, y),
                                    y.quantity - Look(m.stored, y).fulfilled;
            0 <= part == unit * qty <= unit * left && unit * (left - qty) == unit * left - part
  {
    var unit := Unit(m.deposits, y);
    PortionExact(unit, qty, y.quantity);
    UnitNonNegative(unit, y.quantity);
    SplitProduct(unit, y.quantity - Look(m.stored, y).fulfilled, qty);
  }

  lemma SplitProduct(unit: int, n: nat, qty: nat)
    requires 0 <= unit && qty <= n
    ensures unit * (n - qty) == unit * n - unit * qty && 0 <= unit * qty <= unit * n
  {
    assert unit * (n - qty) >= 0;
  }

  /** What a trade changes. */
  lemma TradeShape(m: Models, a: Order, b: Order, price: nat, qty: nat, budget: nat)
    requires Fill(m, a, b, price, qty, budget).traded
    ensures a.userId != b.userId && a.userId in m.users && b.userId in m.users && b.id in m.deposits
    ensures !Look(m.progress, a).isClosed && !Look(m.progress, b).isClosed && qty > 0
    ensures var x, m', reserved := PartiesOf(m, a, b), Fill(m, a, b, price, qty, budget).m, m.deposits[b.id];
            && m'.rows == m.rows + TradeRows(a, b, x, reserved, price, qty)
            && m'.users == m.users[a.userId := x.asker.(cash := Wrap64(x.asker.cash + qty * price - AskTax(x, price, qty)))]
                                  [b.userId := x.bidder.(cash := Wrap64(CashLeft(x, b, reserved, price, qty) - BidTax(x, price, qty)),
                                                         reservedCash := Max0(x.bidder.reservedCash - Portion(reserved, qty, b.quantity)))]
            && CashLeft(x, b, reserved, price, qty) >= MINIMUM_CASH_LIMIT
    ensures var r := Fill(m, a, b, price, qty, budget);
            var ap, bp := FilledBy(a, Look(m.progress, a), qty), FilledBy(b, Look(m.progress, b), qty);
            && (a.id in m.stored && b.id in m.stored ==> r.m.orders == m.orders)
            && r.m.deposits == m.deposits && r.m.entries == m.entries
            && r.m.progress == m.progress[a.id := ap][b.id := bp] && r.m.stored == m.stored[a.id := ap][b.id := bp]
            && r.ask == StatusOf(ap) && r.bid == StatusOf(bp)
  {
    hide AskTax, BidTax, TradeRows, StockAfterTrade, Sold, Bought, Portion, PutSummary, CashLeft, FillWrites, Wrap64, Max0;
  }

  /** What closing the bid for lack of cash changes. */
  lemma ClosedShape(m: Models, a: Order, b: Order, price: nat, qty: nat, budget: nat)
    requires a.id != b.id
    requires var r := Fill(m, a, b, price, qty, budget); !r.traded && r.bid == Done
    ensures a.userId in m.users && b.userId in m.users && a.userId != b.userId && b.id in m.deposits
    ensures !Look(m.progress, a).isClosed && !Look(m.progress, b).isClosed && budget >= CLOSE_WRITES
    ensures CashLeft(PartiesOf(m, a, b), b, m.deposits[b.id], price, qty) < MINIMUM_CASH_LIMIT
    ensures var m', bp := Fill(m, a, b, price, qty, budget).m, Look(m.progress, b);
            && (b.id in m.stored ==> m'.orders == m.orders) && m'.deposits == m.deposits
            && m'.progress == m.progress[a.id := Look(m.progress, a)][b.id := bp.(isClosed := true)]
            && m'.stored == m.stored[b.id := bp.(isClosed := true)]
            && EntryOf(m', b.id) == Missing && (forall id :: id != b.id ==> EntryOf(m', id) == EntryOf(m, id))
            && m'.users == m.users[b.userId := Refunded(m.users[b.userId], Refund(b, bp, m.deposits[b.id]))]
            && m'.rows == m.rows + [RefundRow(b, Refund(b, bp, m.deposits[b.id]))]
            && m'.lendBank == m.lendBank && m'.lends == m.lends && m'.mortgages == m.mortgages && m'.stocks == m.stocks
  {
    hide AskTax, BidTax, TradeRows, PutSummary, Refund, CashLeft, FillWrites, Refunded, RefundRow;
    var x, bp := PartiesOf(m, a, b), Look(m.progress, b);
    var r := FillCore(a, b, x, DepositOf(m, b.id), price, qty, budget);
    assert r.x == x.(bid := bp.(isClosed := true), bidder := Refunded(x.bidder, Refund(b, bp, m.deposits[b.id])), entry := Missing);
    assert m.users[a.userId := x.asker] == m.users;
  }

  /** Both orders are open, of two different known users, and the bid has a deposit. */
  ghost predicate Fillable(m: Models, a: Order, b: Order, qty: nat) {
    && a.userId in m.users && b.userId in m.users && a.userId != b.userId && b.id in m.deposits && qty > 0
    && !Look(m.progress, a).isClosed && !Look(m.progress, b).isClosed
  }

  /** The buyer's cash and the bid's share of its reservation cover the trade. */
  ghost predicate Affordable(m: Models, a: Order, b: Order, price: nat, qty: nat)
    requires Fillable(m, a, b, qty)
  {
    CashLeft(PartiesOf(m, a, b), b, m.deposits[b.id], price, qty) >= MINIMUM_CASH_LIMIT
  }

  ghost predicate Trades(m: Models, a: Order, b: Order, price: nat, qty: nat, budget: nat) {
    Fillable(m, a, b, qty) && Affordable(m, a, b, price, qty) && budget >= WritesNeeded(m, a, b, price, qty)
  }

  ghost predicate ClosesShort(m: Models, a: Order, b: Order, price: nat, qty: nat, budget: nat) {
    Fillable(m, a, b, qty) && !Affordable(m, a, b, price, qty) && budget >= CLOSE_WRITES
  }

  /** Closing a bid for lack of cash fails after its first write, which has taken it out of bidsMap. */
  ghost predicate HalfCloses(m: Models, a: Order, b: Order, price: nat, qty: nat, budget: nat) {
    Fillable(m, a, b, qty) && !Affordable(m, a, b, price, qty) && 0 < budget < CLOSE_WRITES
  }

  /** What a fill does is decided by the orders, the buyer's cash and the writes that succeed. */
  lemma FillGuards(m: Models, a: Order, b: Order, price: nat, qty: nat, budget: nat)
    ensures var r := Fill(m, a, b, price, qty, budget);
            && (r.traded <==> Trades(m, a, b, price, qty, budget))
            && (!r.traded && r.bid == Done <==> ClosesShort(m, a, b, price, qty, budget))
  {
    hide AskTax, BidTax, TradeRows, CashLeft, FillWrites, Refund, Portion, StockAfterTrade, Traded, PutSummary;
  }

  /** A fill that neither trades nor closes the bid changes nothing, except for a closing that fails
      half-way. */
  lemma NoFill(m: Models, a: Order, b: Order, price: nat, qty: nat, budget: nat)
    requires var r := Fill(m, a, b, price, qty, budget); !r.traded && r.bid != Done
    ensures var m' := Fill(m, a, b, price, qty, budget).m;
            m' == if HalfCloses(m, a, b, price, qty, budget) && EntryOf(m, b.id) != Missing
                  then m.(entries := m.entries[b.id := Missing]) else m
  {
    hide AskTax, BidTax, TradeRows, CashLeft, FillWrites, Refund, Portion, StockAfterTrade, Traded, EntryOf, PutSummary;
  }

  /** After a trade the orders' objects agree as before. */
  lemma TradeKeepsOrders(m: Models, m': Models, a: Order, b: Order, y: Order, qty: nat)
    requires OrdersOk(m) && AskFits(m, a) && SameBid(m, b, y) && a.id.side == AskSide && qty > 0
    requires !Look(m.progress, a).isClosed && !Look(m.progress, b).isClosed
    requires qty <= Unfulfilled(a, Look(m.progress, a)) && qty <= Unfulfilled(b, Look(m.progress, b))
    requires m'.orders == m.orders && m'.deposits == m.deposits && m'.entries == m.entries && m'.users.Keys == m.users.Keys
    requires var ap, bp := FilledBy(a, Look(m.progress, a), qty), FilledBy(b, Look(m.progress, b), qty);
             m'.progress == m.progress[a.id := ap][b.id := bp] && m'.stored == m.stored[a.id := ap][b.id := bp]
    ensures OrdersOk(m')
  {
    forall z | z in m.orders ensures WellFilled(z, m'.stored) && Linked(m', z) {
      assert OrderOk(m, z);
      if z.id == y.id { SameId(m, y, z); }
    }
    OrdersKept(m, m');
  }

  /** The bid whose part is taken is one whose row is open: the reserve follows. */
  lemma TradeKeepsReserve(m: Models, m': Models, a: Order, b: Order, y: Order, qty: nat)
    requires Booked(m) && SameBid(m, b, y) && a.id.side == AskSide && !Apart(m, b)
    requires !Look(m.progress, b).isClosed && qty <= Unfulfilled(b, Look(m.progress, b))
    requires m'.orders == m.orders && m'.deposits == m.deposits && m'.users.Keys == m.users.Keys
    requires Look(m'.stored, y) == FilledBy(b, Look(m.progress, b), qty)
    requires forall z :: z in m.orders && z.id != y.id && z.id.side == BidSide ==> Look(m'.stored, z) == Look(m.stored, z)
    requires b.id in m.deposits && m'.users[y.userId].reservedCash
             == Max0(m.users[y.userId].reservedCash - Portion(m.deposits[b.id], qty, b.quantity))
    requires forall u :: u in m.users && u != y.userId ==> m'.users[u].reservedCash == m.users[u].reservedCash
    ensures Reserved(m') && Portion(m.deposits[b.id], qty, b.quantity) <= m.users[y.userId].reservedCash
  {
    PartIs(m, b, y, qty);
    ReserveCovers(m, y);
    hide Portion;
    OneHoldingMoves(m, m', y);
  }

  /** Closing a bid whose row is open releases exactly what it held. */
  lemma CloseKeepsReserve(m: Models, m': Models, b: Order, y: Order, p: Progress)
    requires Booked(m) && SameBid(m, b, y) && !Look(m.stored, y).isClosed && p.fulfilled == Look(m.stored, y).fulfilled
    requires m'.orders == m.orders && m'.deposits == m.deposits && m'.users.Keys == m.users.Keys
    requires Look(m'.stored, y).isClosed
    requires forall z :: z in m.orders && z.id != y.id ==> Look(m'.stored, z) == Look(m.stored, z)
    requires b.id in m.deposits
             && m'.users[y.userId].reservedCash == Sub64(m.users[y.userId].reservedCash, Refund(b, p, m.deposits[b.id]))
    requires forall u :: u in m.users && u != y.userId ==> m'.users[u].reservedCash == m.users[u].reservedCash
    ensures Reserved(m') && Refund(b, p, m.deposits[b.id]) <= m.users[y.userId].reservedCash
  {
    RefundIs(m, b, y, p);
    ReserveCovers(m, y);
    hide Refund;
    OneHoldingMoves(m, m', y);
  }

  // -------------------------------------------------------------------------
  // Orders that are recorded late
  // -------------------------------------------------------------------------

  /** Saving an order whose placing was rolled back records it; it holds nothing in reserve. */
  lemma ForeignJoins(m: Models, o: Order)
    requires OrdersOk(m) && Foreign(m, o)
    ensures OrdersOk(Wake(m, o, true)) && o in Wake(m, o, true).orders
    ensures Booked(m) ==> Booked(Wake(m, o, true))
  {
    var m' := Wake(m, o, true);
    forall x | x in m.orders ensures OrderOk(m', x) && x.id != o.id {
      assert OrderOk(m, x);
    }
    assert OrderOk(m', o);
    if Booked(m) {
      forall u | u in m'.users
        ensures m'.users[u].reservedCash == Sum(m'.orders, HeldBy(u, m'.deposits, m'.stored))
      {
        var w, w' := HeldBy(u, m.deposits, m.stored), HeldBy(u, m'.deposits, m'.stored);
        SumSame(m.orders, w, w');
        SumAppend(m.orders, o, w');
      }
    }
  }

  /** A trade writes the ask's row anyway, so it may as well be recorded before. */
  lemma TradeRecords(m: Models, a: Order, b: Order, price: nat, qty: nat, budget: nat)
    requires a.id != b.id && Fill(m, a, b, price, qty, budget).traded
    ensures Fill(Wake(m, a, true), a, b, price, qty, budget) == Fill(m, a, b, price, qty, budget)
  {
    hide AskTax, BidTax, FillWrites, PutSummary, FillCore, Store, Stocks.VolumeUpdated, Stocks.PriceUpdated, Stocks.AverageUpdated;
    var m0, x := Wake(m, a, true), PartiesOf(m, a, b);
    assert PartiesOf(m0, a, b) == x && DepositOf(m0, b.id) == DepositOf(m, b.id);
    assert forall saved :: StockAfterTrade(m0, a.stockId, price, qty, saved) == StockAfterTrade(m, a.stockId, price, qty, saved);
    hide StockAfterTrade, PartiesOf, DepositOf;
    StoredAnyway(m, a, b, FillCore(a, b, x, DepositOf(m, b.id), price, qty, budget));
  }

  lemma StoredAnyway(m: Models, a: Order, b: Order, r: FillOutcome)
    requires a.id != b.id && r.traded
    ensures Store(Wake(m, a, true), a, b, r) == Store(m, a, b, r)
  {
    hide PutSummary;
    var m0, p := Wake(m, a, true), Look(m.progress, a);
    assert m.stored[a.id := p][a.id := r.x.ask] == m.stored[a.id := r.x.ask];
  }

  /** What is known of the orders after such a recording. */
  lemma RecordedLegal(m: Models, a: Order, b: Order, price: nat, qty: nat, budget: nat)
    requires Legal(m, FillOp(a, b, price, qty, budget)) && Foreign(m, a)
    ensures Legal(Wake(m, a, true), FillOp(a, b, price, qty, budget)) && Known(Wake(m, a, true), a)
    ensures Known(m, b) ==> Known(Wake(m, a, true), b)
  {
    var m' := Wake(m, a, true);
    assert a in m'.orders;
    if Known(m, b) {
      var x :| x in m.orders && (b == x || b == Triggered(x));
      assert x in m'.orders;
    } else {
      assert Foreign(m', b);
    }
  }

  // -------------------------------------------------------------------------
  // Exactly when a fill keeps the reserves right
  // -------------------------------------------------------------------------

  lemma EntryGone(m: Models, m': Models, b: Order)
    requires OrdersOk(m) && m' == m.(entries := m.entries[b.id := Missing])
    ensures OrdersOk(m') && (Booked(m) ==> Booked(m'))
  {
    forall x | x in m.orders ensures OrderOk(m', x) {
      assert OrderOk(m, x);
    }
  }

  lemma TradeInWords(m: Models, a: Order, b: Order, price: nat, qty: nat, budget: nat)
    requires InWords(m) && Fill(m, a, b, price, qty, budget).traded
    ensures InWords(Fill(m, a, b, price, qty, budget).m)
  {
    TradeShape(m, a, b, price, qty, budget);
    hide Fill, TradeRows, AskTax, BidTax, CashLeft, Portion;
  }

  /** A trade with a bid whose row is open keeps everything right. */
  lemma TradeBooked(m: Models, a: Order, b: Order, y: Order, price: nat, qty: nat, budget: nat)
    requires Booked(m) && Legal(m, FillOp(a, b, price, qty, budget)) && SameBid(m, b, y) && AskFits(m, a) && a.id in m.stored
    requires Fill(m, a, b, price, qty, budget).traded && !Apart(m, b)
    ensures Booked(Fill(m, a, b, price, qty, budget).m)
    ensures Portion(m.deposits[b.id], qty, b.quantity) <= m.users[b.userId].reservedCash
  {
    hide Fill, TradeRows, AskTax, BidTax, CashLeft, Portion, InWords, Known, Foreign;
    var m' := Fill(m, a, b, price, qty, budget).m;
    TradeShape(m, a, b, price, qty, budget);
    TradeInWords(m, a, b, price, qty, budget);
    TradeKeepsOrders(m, m', a, b, y, qty);
    TradeKeepsReserve(m, m', a, b, y, qty);
  }

  /** A trade with a bid whose row is closed takes the reservation again. */
  lemma ApartTradeIff(m: Models, a: Order, b: Order, y: Order, price: nat, qty: nat, budget: nat)
    requires Booked(m) && Legal(m, FillOp(a, b, price, qty, budget)) && SameBid(m, b, y) && AskFits(m, a) && a.id in m.stored
    requires Fill(m, a, b, price, qty, budget).traded && Apart(m, b)
    ensures b.userId in m.users
    ensures var unit := Unit(m.deposits, y);
            Booked(Fill(m, a, b, price, qty, budget).m)
            <==> unit == 0 || (qty == Unfulfilled(b, Look(m.progress, b)) && m.users[b.userId].reservedCash == 0)
  {
    hide Fill, TradeRows, AskTax, BidTax, CashLeft, Portion, InWords, Known, Foreign;
    var m' := Fill(m, a, b, price, qty, budget).m;
    TradeShape(m, a, b, price, qty, budget);
    TradeInWords(m, a, b, price, qty, budget);
    TradeKeepsOrders(m, m', a, b, y, qty);
    ApartReserve(m, m', b, y, qty);
  }

  lemma ApartReserve(m: Models, m': Models, b: Order, y: Order, qty: nat)
    requires Booked(m) && SameBid(m, b, y) && Apart(m, b) && b.userId in m.users
    requires 0 < qty <= Unfulfilled(b, Look(m.progress, b))
    requires m'.orders == m.orders && m'.deposits == m.deposits && m'.users.Keys == m.users.Keys
    requires Look(m'.stored, y) == FilledBy(b, Look(m.progress, b), qty)
    requires forall z :: z in m.orders && z.id != y.id && z.id.side == BidSide ==> Look(m'.stored, z) == Look(m.stored, z)
    requires m'.users[b.userId].reservedCash
             == Max0(m.users[b.userId].reservedCash - Portion(m.deposits[b.id], qty, b.quantity))
    requires forall u :: u in m.users && u != b.userId ==> m'.users[u].reservedCash == m.users[u].reservedCash
    ensures Reserved(m') <==> Unit(m.deposits, y) == 0
                              || (Look(m'.stored, y).isClosed && m.users[b.userId].reservedCash == 0)
  {
    var unit, n := Unit(m.deposits, y), y.quantity - Look(m.stored, y).fulfilled;
    PartIs(m, b, y, qty);
    ReserveNonNegative(m, b.userId);
    UnitNonNegative(unit, y.quantity);
    LeftOver(unit, n, qty);
    forall z | z in m.orders && z.id != y.id
      ensures Held(m.deposits, m'.stored, z) == Held(m.deposits, m.stored, z) {}
    assert Held(m.deposits, m.stored, y) == 0;
    assert Held(m.deposits, m'.stored, y) == unit * (n - qty);
    hide Portion, Held, Unit;
    ReservedIff(m, m', y, b.userId);
  }

  lemma LeftOver(unit: int, n: nat, qty: nat)
    requires 0 <= unit && 0 < qty <= n
    ensures unit * (n - qty) == 0 <==> unit == 0 || n == qty
    ensures unit * qty == 0 <==> unit == 0
    ensures unit * (n - qty) >= 0 && unit * qty >= 0
  {
  }

  lemma ReserveNonNegative(m: Models, u: nat)
    requires Booked(m) && u in m.users
    ensures 0 <= m.users[u].reservedCash
  {
    var w := HeldBy(u, m.deposits, m.stored);
    forall y | y in m.orders ensures 0 <= w(y) { HeldNonNegative(m, y); }
    SumNonNegative(m.orders, w);
  }

  /** When only one bid's holding changes, the reserves are right exactly if its user's moved with it. */
  lemma ReservedIff(m: Models, m': Models, x: Order, u: nat)
    requires Booked(m) && x in m.orders && u == x.userId && u in m.users
    requires m'.orders == m.orders && m'.deposits == m.deposits && m'.users.Keys == m.users.Keys
    requires forall y :: y in m.orders && y.id != x.id
                         ==> Held(m.deposits, m'.stored, y) == Held(m.deposits, m.stored, y)
    requires forall v :: v in m.users && v != u ==> m'.users[v].reservedCash == m.users[v].reservedCash
    ensures Reserved(m') <==> m'.users[u].reservedCash - m.users[u].reservedCash
                              == Held(m.deposits, m'.stored, x) - Held(m.deposits, m.stored, x)
  {
    var w, w' := HeldBy(u, m.deposits, m.stored), HeldBy(u, m.deposits, m'.stored);
    var i :| 0 <= i < |m.orders| && m.orders[i] == x;
    forall j | 0 <= j < |m.orders| && j != i ensures w(m.orders[j]) == w'(m.orders[j]) {
      assert m.orders[j].id != x.id;
    }
    SumChangesOne(m.orders, i, w, w');
    if m'.users[u].reservedCash - m.users[u].reservedCash
       == Held(m.deposits, m'.stored, x) - Held(m.deposits, m.stored, x) {
      OneHoldingMoves(m, m', x);
    }
  }

  /** Closing a bid for lack of cash keeps everything right unless its row was closed already. */
  lemma CloseFillIff(m: Models, a: Order, b: Order, y: Order, price: nat, qty: nat, budget: nat)
    requires Booked(m) && SameBid(m, b, y) && a.id.side == AskSide && Look(m.progress, b) == Look(m.progress, y)
    requires var r := Fill(m, a, b, price, qty, budget); !r.traded && r.bid == Done
    ensures Booked(Fill(m, a, b, price, qty, budget).m) <==> !Apart(m, b) || Unit(m.deposits, y) == 0
  {
    var m' := Fill(m, a, b, price, qty, budget).m;
    ClosedShape(m, a, b, price, qty, budget);
    hide Fill, CashLeft, Refund;
    ClosedOrdersOk(m, m', b, y);
    if Apart(m, b) {
      ApartRefund(m, m', b, y, Look(m.progress, b));
    } else {
      CloseKeepsReserve(m, m', b, y, Look(m.progress, b));
    }
  }

  /** Closing a bid's object and row, and taking it out of the map. */
  lemma ClosedOrdersOk(m: Models, m': Models, b: Order, y: Order)
    requires OrdersOk(m) && SameBid(m, b, y)
    requires m'.orders == m.orders && m'.deposits == m.deposits && m'.users.Keys == m.users.Keys
    requires m.progress.Keys <= m'.progress.Keys && m.stored.Keys <= m'.stored.Keys
    requires Look(m'.progress, y) == Look(m'.stored, y) == Look(m.progress, y).(isClosed := true)
    requires forall z :: z in m.orders && z.id != y.id
                         ==> Look(m'.progress, z) == Look(m.progress, z) && Look(m'.stored, z) == Look(m.stored, z)
    requires EntryOf(m', y.id) == Missing && forall id :: id != y.id ==> EntryOf(m', id) == EntryOf(m, id)
    ensures OrdersOk(m')
  {
    forall z | z in m.orders ensures WellFilled(z, m'.stored) && Linked(m', z) {
      assert OrderOk(m, z);
      if z.id == y.id { SameId(m, y, z); }
    }
    OrdersKept(m, m');
  }

  /** A second refund is right only if it is nothing. */
  lemma ApartRefund(m: Models, m': Models, b: Order, y: Order, p: Progress)
    requires Booked(m) && SameBid(m, b, y) && Look(m.stored, y).isClosed && b.userId in m.users
    requires !p.isClosed && p.fulfilled < y.quantity
    requires m'.orders == m.orders && m'.deposits == m.deposits && m'.users.Keys == m.users.Keys
    requires Look(m'.stored, y).isClosed
    requires forall z :: z in m.orders && z.id != y.id ==> Look(m'.stored, z) == Look(m.stored, z)
    requires m'.users[b.userId].reservedCash
             == Sub64(m.users[b.userId].reservedCash, Refund(b, p, m.deposits[b.id]))
    requires forall u :: u in m.users && u != b.userId ==> m'.users[u].reservedCash == m.users[u].reservedCash
    ensures Reserved(m') <==> Unit(m.deposits, y) == 0
  {
    var unit := Unit(m.deposits, y);
    RefundIs(m, b, y, p);
    LeftOver(unit, y.quantity - p.fulfilled, y.quantity - p.fulfilled);
    ReserveNonNegative(m, b.userId);
    WrapsElsewhere(m.users[b.userId].reservedCash, Refund(b, p, m.deposits[b.id]));
    assert Held(m.deposits, m.stored, y) == Held(m.deposits, m'.stored, y) == 0;
    hide Refund, Held, Unit, Sub64;
    ReservedIff(m, m', y, b.userId);
  }

  lemma WrapsElsewhere(r: int, d: int)
    requires 0 <= r && 0 <= d < TWO_63
    ensures Sub64(r, d) == r <==> d == 0
  {
  }

  /** A legal fill, whatever its outcome and however many writes succeed, keeps each user's reserve equal
      to what their open bids need if and only if it does not act on a reservation returned before. */
  lemma FillBookedIff(m: Models, a: Order, b: Order, price: nat, qty: nat, budget: nat)
    requires Booked(m) && Legal(m, FillOp(a, b, price, qty, budget))
    ensures Booked(Fill(m, a, b, price, qty, budget).m) <==> !Misbooks(m, FillOp(a, b, price, qty, budget))
  {
    hide Fill, Booked, Foreign, Known, Trades, ClosesShort, Unit;
    var r := Fill(m, a, b, price, qty, budget);
    FillGuards(m, a, b, price, qty, budget);
    if r.traded {
      TradedBookedIff(m, a, b, price, qty, budget);
    } else if r.bid == Done {
      ClosedBookedIff(m, a, b, price, qty, budget);
    } else {
      NoFill(m, a, b, price, qty, budget);
      hide HalfCloses;
      if r.m != m {
        assert OrdersOk(m) by { BookedHas(m); }
        EntryGone(m, r.m, b);
      }
    }
  }

  lemma BookedHas(m: Models)
    requires Booked(m)
    ensures OrdersOk(m) && Reserved(m) && InWords(m)
  {
  }

  lemma ClosedBookedIff(m: Models, a: Order, b: Order, price: nat, qty: nat, budget: nat)
    requires Booked(m) && Legal(m, FillOp(a, b, price, qty, budget))
    requires var r := Fill(m, a, b, price, qty, budget); !r.traded && r.bid == Done
    ensures Booked(Fill(m, a, b, price, qty, budget).m) <==> !(Apart(m, b) && Unit(m.deposits, b) > 0)
  {
    hide Fill, Reserved, InWords, Unit;
    ClosedShape(m, a, b, price, qty, budget);
    BidKnown(m, b);
    var y := BidFound(m, b);
    hide OrdersOk, Foreign, CashLeft, Refund;
    CloseFillIff(m, a, b, y, price, qty, budget);
    UnitNonNegative(Unit(m.deposits, y), y.quantity);
  }

  lemma TradedBookedIff(m: Models, a: Order, b: Order, price: nat, qty: nat, budget: nat)
    requires Booked(m) && Legal(m, FillOp(a, b, price, qty, budget)) && Fill(m, a, b, price, qty, budget).traded
    ensures b.userId in m.users
    ensures Booked(Fill(m, a, b, price, qty, budget).m)
            <==> !(Apart(m, b) && Unit(m.deposits, b) > 0
                   && (qty < Unfulfilled(b, Look(m.progress, b)) || m.users[b.userId].reservedCash != 0))
  {
    hide Fill, Reserved, InWords, Unit;
    AskFound(m, a);
    if Known(m, a) {
      hide OrdersOk, Foreign;
      TradedRecordedIff(m, a, b, price, qty, budget);
    } else {
      TradeShape(m, a, b, price, qty, budget);
      BidKnown(m, b);
      var m0 := Wake(m, a, true);
      TradeRecords(m, a, b, price, qty, budget);
      ForeignJoins(m, a);
      RecordedLegal(m, a, b, price, qty, budget);
      AskFound(m0, a);
      hide OrdersOk, Foreign, Known, CashLeft, TradeRows, Portion;
      TradedRecordedIff(m0, a, b, price, qty, budget);
    }
  }

  lemma BidKnown(m: Models, b: Order)
    requires OrdersOk(m) && b.id.side == BidSide && b.id in m.deposits && (Known(m, b) || Foreign(m, b))
    ensures Known(m, b) && b.id in m.stored
  {
    var x :| x in m.orders && (b == x || b == Triggered(x));
    assert OrderOk(m, x);
  }

  lemma TradedRecordedIff(m: Models, a: Order, b: Order, price: nat, qty: nat, budget: nat)
    requires Booked(m) && Legal(m, FillOp(a, b, price, qty, budget)) && AskFits(m, a) && a.id in m.stored
    requires Fill(m, a, b, price, qty, budget).traded
    ensures b.userId in m.users
    ensures Booked(Fill(m, a, b, price, qty, budget).m)
            <==> !(Apart(m, b) && Unit(m.deposits, b) > 0
                   && (qty < Unfulfilled(b, Look(m.progress, b)) || m.users[b.userId].reservedCash != 0))
  {
    TradeShape(m, a, b, price, qty, budget);
    hide Fill, Foreign, AskFits;
    var y := BidFound(m, b);
    hide Booked;
    if Apart(m, b) {
      ApartTradeIff(m, a, b, y, price, qty, budget);
      UnitNonNegative(Unit(m.deposits, y), y.quantity);
    } else {
      TradeBooked(m, a, b, y, price, qty, budget);
    }
  }

  /** The orders alone stay in order in every fill. */
  lemma FillOrdersOk(m: Models, a: Order, b: Order, price: nat, qty: nat, budget: nat)
    requires OrdersOk(m) && Legal(m, FillOp(a, b, price, qty, budget))
    ensures OrdersOk(Fill(m, a, b, price, qty, budget).m)
  {
    var r := Fill(m, a, b, price, qty, budget);
    AskFound(m, a);
    if r.traded {
      TradeShape(m, a, b, price, qty, budget);
      var y := BidFound(m, b);
      hide Fill;
      if Known(m, a) {
        hide CashLeft, TradeRows, Portion;
        TradeKeepsOrders(m, r.m, a, b, y, qty);
      } else {
        ForeignTraded(m, a, b, price, qty, budget);
      }
    } else if r.bid == Done {
      ClosedShape(m, a, b, price, qty, budget);
      var y := BidFound(m, b);
      hide Fill, CashLeft, Refund, Foreign, AskFits;
      ClosedOrdersOk(m, r.m, b, y);
    } else {
      NoFill(m, a, b, price, qty, budget);
      hide Fill, OrdersOk, Foreign, Known, AskFits, HalfCloses;
      if r.m != m {
        EntryGone(m, r.m, b);
      }
    }
  }

  lemma ForeignTraded(m: Models, a: Order, b: Order, price: nat, qty: nat, budget: nat)
    requires OrdersOk(m) && Legal(m, FillOp(a, b, price, qty, budget)) && Foreign(m, a) && Fill(m, a, b, price, qty, budget).traded
    ensures OrdersOk(Fill(m, a, b, price, qty, budget).m)
  {
    var m0 := Wake(m, a, true);
    TradeRecords(m, a, b, price, qty, budget);
    ForeignJoins(m, a);
    RecordedLegal(m, a, b, price, qty, budget);
    AskFound(m0, a);
    TradeShape(m0, a, b, price, qty, budget);
    hide Fill;
    var y := BidFound(m0, b);
    hide OrdersOk, CashLeft, TradeRows, Portion, Foreign;
    TradeKeepsOrders(m0, Fill(m0, a, b, price, qty, budget).m, a, b, y, qty);
  }

  // -------------------------------------------------------------------------
  // Cancelling
  // -------------------------------------------------------------------------

  /** Only what is in memory of one order changes. */
  ghost predicate OnlyInMemory(m: Models, m': Models, o: Order) {
    && m'.orders == m.orders && m'.deposits == m.deposits && m'.users == m.users && m'.stored == m.stored
    && m.progress.Keys <= m'.progress.Keys
    && forall x: Order :: x.id != o.id ==> Look(m'.progress, x) == Look(m.progress, x) && EntryOf(m', x.id) == EntryOf(m, x.id)
  }

  lemma InMemoryBooked(m: Models, m': Models, o: Order)
    requires OrdersOk(m) && OnlyInMemory(m, m', o) && (o in m.orders ==> Linked(m', o)) && (o.id in m.stored ==> o in m.orders)
    ensures OrdersOk(m') && (Booked(m) ==> Booked(m'))
  {
    forall x | x in m.orders ensures OrderOk(m', x) {
      assert OrderOk(m, x);
      if x.id == o.id { SameId(m, x, o); }
    }
  }

  lemma LookedUpBooked(m: Models, o: Order)
    requires OrdersOk(m) && (o in m.orders || Foreign(m, o))
    ensures OrdersOk(LookedUp(m, o)) && (Booked(m) ==> Booked(LookedUp(m, o)))
  {
    if o in m.orders { assert OrderOk(m, o); }
    hide OrdersOk, Reserved, InWords, Unit;
    InMemoryBooked(m, LookedUp(m, o), o);
  }

  lemma WithEntryIs(m: Models, o: Order, e: Entry)
    ensures OnlyInMemory(m, WithEntry(m, o.id, e), o) && EntryOf(WithEntry(m, o.id, e), o.id) == e
  {
  }

  lemma WithProgressIs(m: Models, o: Order, p: Progress)
    ensures OnlyInMemory(m, WithProgress(m, o.id, p), o) && Look(WithProgress(m, o.id, p).progress, o) == p
    ensures EntryOf(WithProgress(m, o.id, p), o.id) == EntryOf(m, o.id)
  {
  }

  /** Marking closed shows in the queue exactly when the map holds the queue's object. */
  lemma MarkedClosedShape(m: Models, o: Order)
    ensures var m', p := MarkedClosed(m, o), Look(m.progress, o);
            && OnlyInMemory(m, m', o)
            && Look(m'.progress, o) == (if EntryOf(m, o.id) == Shared then p.(isClosed := true) else p)
            && EntryOf(m', o.id) == (if EntryOf(m, o.id) == Shared then Shared else Copy(Seen(m, o).(isClosed := true)))
  {
    hide OnlyInMemory, Seen, EntryOf;
    if EntryOf(m, o.id) == Shared {
      WithProgressIs(m, o, Look(m.progress, o).(isClosed := true));
    } else {
      WithEntryIs(m, o, Copy(Seen(m, o).(isClosed := true)));
      assert WithEntry(m, o.id, Copy(Seen(m, o).(isClosed := true))).progress == m.progress;
    }
    hide WithEntry, WithProgress, Look;
  }

  lemma MarkedClosedBooked(m: Models, o: Order)
    requires OrdersOk(m) && (o in m.orders || Foreign(m, o))
    ensures var m1, m2 := MarkedClosed(m, o), TakenOut(MarkedClosed(m, o), o);
            && OrdersOk(m1) && OrdersOk(m2) && (Booked(m) ==> Booked(m1) && Booked(m2))
  {
    var m1, m2 := MarkedClosed(m, o), TakenOut(MarkedClosed(m, o), o);
    if o in m.orders { assert OrderOk(m, o); }
    MarkedClosedShape(m, o);
    WithEntryIs(m1, o, Missing);
    assert m2.progress == m1.progress && m1.stored == m.stored == m2.stored;
    hide OrdersOk, Reserved, InWords, Unit, MarkedClosed, TakenOut, OnlyInMemory, Look;
    assert o in m.orders ==> Linked(m1, o);
    InMemoryBooked(m, m1, o);
    assert o in m.orders ==> Linked(m2, o);
    InMemoryBooked(m1, m2, o);
  }

  lemma ReleasedShape(m: Models, o: Order, p: Progress)
    requires o.userId in m.users && (o.id.side == BidSide ==> o.id in m.deposits)
    ensures var m' := Released(m, o, p);
            && (o.id in m.stored ==> m'.orders == m.orders)
            && m'.deposits == m.deposits && m'.progress == m.progress && m'.entries == m.entries
            && m'.stored == m.stored[o.id := p.(isClosed := true)]
            && m'.users == (if o.id.side == AskSide then m.users
                            else m.users[o.userId := Refunded(m.users[o.userId], Refund(o, p, m.deposits[o.id]))])
  {
    hide Refund, Refunded, RefundRow;
  }

  /** Closing an order's row: right unless it is closed already and holds something. */
  lemma RowClosedBookedIff(m: Models, m': Models, o: Order, p: Progress)
    requires OrdersOk(m) && o in m.orders && EntryOf(m, o.id) == Missing && o.userId in m.users
    requires p.fulfilled == Look(m.stored, o).fulfilled < o.quantity && !p.isClosed
    requires m'.orders == m.orders && m'.deposits == m.deposits && m'.progress == m.progress && m'.entries == m.entries
    requires m'.stored == m.stored[o.id := p.(isClosed := true)]
    requires o.id.side == AskSide ==> m'.users == m.users
    requires o.id.side == BidSide ==>
               o.id in m.deposits
               && m'.users == m.users[o.userId := Refunded(m.users[o.userId], Refund(o, p, m.deposits[o.id]))]
    ensures OrdersOk(m')
    ensures Booked(m) ==> (Booked(m') <==> !(o.id.side == BidSide && Look(m.stored, o).isClosed && Unit(m.deposits, o) > 0))
  {
    assert OrderOk(m, o);
    forall z | z in m.orders ensures WellFilled(z, m'.stored) && Linked(m', z) {
      assert OrderOk(m, z);
      if z.id == o.id { SameId(m, o, z); }
    }
    hide Refund;
    OrdersKept(m, m');
    if Booked(m) {
      if o.id.side == AskSide {
        OneHoldingMoves(m, m', o);
      } else if Look(m.stored, o).isClosed {
        ApartRefund(m, m', o, o, p);
        UnitNonNegative(Unit(m.deposits, o), o.quantity);
      } else {
        CloseKeepsReserve(m, m', o, o, p);
      }
    }
  }

  lemma ReleasedBookedIff(m: Models, o: Order)
    requires OrdersOk(m) && o in m.orders && !Seen(m, o).isClosed && o.userId in m.users
    requires o.id.side == BidSide ==> o.id in m.deposits
    ensures var m', e := Released(TakenOut(MarkedClosed(m, o), o), o, Seen(m, o)), EntryOf(m, o.id);
            && (OrdersOk(m') <==> !(e.Copy? && e.copy.fulfilled != Look(m.stored, o).fulfilled))
            && (Booked(m) && OrdersOk(m')
                ==> (Booked(m') <==> !(e.Copy? && Look(m.stored, o).isClosed && o.id.side == BidSide && Unit(m.deposits, o) > 0)))
  {
    var p, m1 := Seen(m, o), TakenOut(MarkedClosed(m, o), o);
    var m' := Released(m1, o, p);
    assert OrderOk(m, o);
    ReleasedShape(m1, o, p);
    MarkedClosedShape(m, o);
    MarkedClosedBooked(m, o);
    hide Released, MarkedClosed, OrdersOk, Reserved, InWords, Unit;
    if p.fulfilled != Look(m.stored, o).fulfilled {
      UnlinkedNotOk(m', o);
    } else {
      RowClosedBookedIff(m1, m', o, p);
    }
  }

  lemma UnlinkedNotOk(m: Models, o: Order)
    requires o in m.orders && Look(m.progress, o).fulfilled != Look(m.stored, o).fulfilled
    ensures !OrdersOk(m)
  {
    assert !OrderOk(m, o);
  }

  /** What a cancellation can change. */
  ghost predicate CancelChanges(m: Models, m': Models, o: Order, done: bool) {
    && m'.deposits == m.deposits
    && m'.orders == (if done && o.id !in m.stored then m.orders + [o] else m.orders)
    && m'.progress == (if EntryOf(m, o.id) == Shared && !Seen(m, o).isClosed
                       then m.progress[o.id := Look(m.progress, o).(isClosed := true)] else m.progress)
    && m'.stored == (if done then m.stored[o.id := Seen(m, o).(isClosed := true)] else m.stored)
    && (forall id :: id != o.id ==> EntryOf(m', id) == EntryOf(m, id))
    && (EntryOf(m', o.id) == Missing
        || EntryOf(m', o.id) == if EntryOf(m, o.id) == Shared then Shared else Copy(Seen(m, o).(isClosed := true)))
  }

  lemma MarkedClosedIs(m: Models, o: Order)
    requires !Seen(m, o).isClosed
    ensures CancelChanges(m, MarkedClosed(m, o), o, false)
    ensures MarkedClosed(m, o).rows == m.rows
  {
    var m1, c := MarkedClosed(m, o), Copy(Seen(m, o).(isClosed := true));
    if EntryOf(m, o.id) == Shared {
      WithProgressIs(m, o, Look(m.progress, o).(isClosed := true));
    } else {
      WithEntryIs(m, o, c);
    }
    hide Seen;
  }

  lemma TakenOutIs(m: Models, m1: Models, o: Order)
    requires CancelChanges(m, m1, o, false)
    ensures CancelChanges(m, TakenOut(m1, o), o, false) && TakenOut(m1, o).rows == m1.rows
    ensures EntryOf(TakenOut(m1, o), o.id) == Missing
  {
    hide Seen;
  }

  lemma CancelOpenShape(m: Models, o: Order, budget: nat)
    requires o.userId in m.users && !Seen(m, o).isClosed
    ensures budget > 0 ==> EntryOf(CancelOpen(m, o, budget).m, o.id) == Missing
    ensures var r := CancelOpen(m, o, budget);
            CancelChanges(m, r.m, o, r.error.None?)
            && (r.error.Some? ==> r.m.users == m.users && r.m.rows == m.rows)
  {
    var m2, p := TakenOut(MarkedClosed(m, o), o), Seen(m, o);
    MarkedClosedIs(m, o);
    TakenOutIs(m, MarkedClosed(m, o), o);
    hide Released, Seen, MarkedClosed, TakenOut, EntryOf;
    if CancelOpen(m, o, budget).error.None? {
      ReleasedShape(m2, o, p);
    }
  }

  /** What CancelOrder does to an order with a row. */
  lemma CancelOpenBookedIff(m: Models, o: Order, budget: nat)
    requires OrdersOk(m) && o in m.orders && o.userId in m.users && !Seen(m, o).isClosed
    ensures var r, e := CancelOpen(m, o, budget), EntryOf(m, o.id);
            && (OrdersOk(r.m) <==> !(r.error.None? && e.Copy? && e.copy.fulfilled != Look(m.stored, o).fulfilled))
            && (Booked(m) && OrdersOk(r.m)
                ==> (Booked(r.m) <==> !(r.error.None? && e.Copy? && Look(m.stored, o).isClosed
                                        && o.id.side == BidSide && Unit(m.deposits, o) > 0)))
  {
    hide OrdersOk, Reserved, InWords, MarkedClosed, TakenOut, Released, Seen, Unit;
    MarkedClosedBooked(m, o);
    if CancelOpen(m, o, budget).error.None? {
      ReleasedBookedIff(m, o);
    }
  }

  /** Cancelling an order whose placing was rolled back: only an ask can be written, and is recorded with
      that. */
  lemma ForeignCancelled(m: Models, o: Order, budget: nat)
    requires OrdersOk(m) && Foreign(m, o) && EntryOf(m, o.id) == Shared && !Look(m.progress, o).isClosed
    ensures OrdersOk(CancelOpen(m, o, budget).m)
    ensures Booked(m) ==> Booked(CancelOpen(m, o, budget).m)
  {
    MarkedClosedBooked(m, o);
    if CancelOpen(m, o, budget).error.None? {
      ForeignJoins(m, o);
      CancelRecords(m, o, budget);
      hide OrdersOk, Reserved, InWords, CancelOpen;
      CancelOpenBookedIff(Wake(m, o, true), o, budget);
    } else {
      hide OrdersOk, Reserved, InWords, MarkedClosed, TakenOut, Released, Seen;
    }
  }

  lemma CancelRecords(m: Models, o: Order, budget: nat)
    requires o.userId in m.users && EntryOf(m, o.id) == Shared && CancelOpen(m, o, budget).error.None?
    ensures CancelOpen(Wake(m, o, true), o, budget) == CancelOpen(m, o, budget)
  {
    hide Released;
    var m0, m2 := Wake(m, o, true), TakenOut(MarkedClosed(m, o), o);
    assert EntryOf(m0, o.id) == EntryOf(m, o.id);
    hide EntryOf;
    assert TakenOut(MarkedClosed(m0, o), o) == m2.(orders := m0.orders, stored := m0.stored);
    ReleasedAnyway(m2, m0, o, Seen(m, o));
  }

  lemma ReleasedAnyway(m: Models, m0: Models, o: Order, p: Progress)
    requires m0.stored == m.stored[o.id := p] && m0.orders == WithRow(m, o, p).orders
    requires o.userId in m.users && (o.id.side == BidSide ==> o.id in m.deposits)
    ensures Released(m.(orders := m0.orders, stored := m0.stored), o, p) == Released(m, o, p)
  {
    hide Refund, Refunded, RefundRow, Unfulfilled;
    assert m0.stored[o.id := p.(isClosed := true)] == m.stored[o.id := p.(isClosed := true)];
  }

  /** The orders stay in order unless an old copy is written over a row. */
  lemma CancelOrdersOkIff(m: Models, u: nat, o: Order, budget: nat)
    requires OrdersOk(m) && Legal(m, CancelOp(u, o, budget))
    ensures OrdersOk(Accounts.Cancel(m, u, o, budget).m) <==> !Outdates(m, CancelOp(u, o, budget))
  {
    CancelGuards(m, u, o, budget);
    hide OrdersOk, LookedUp, CancelOpen, CancelSucceeds;
    if Findable(m, o) {
      LookedUpBooked(m, o);
      if u in m.users && o.userId == u && !Seen(m, o).isClosed {
        if o in m.orders {
          CancelOpenBookedIff(m, o, budget);
        } else {
          ForeignCancelled(m, o, budget);
        }
      }
    }
  }

  /** A cancellation, whether or not its writes succeed, keeps the reserves right if and only if it does
      not act on a copy of an order that has been filled or closed since. */
  lemma CancelBookedIff(m: Models, u: nat, o: Order, budget: nat)
    requires Booked(m) && Legal(m, CancelOp(u, o, budget))
    ensures Booked(Accounts.Cancel(m, u, o, budget).m) <==> !Misbooks(m, CancelOp(u, o, budget))
  {
    CancelOrdersOkIff(m, u, o, budget);
    CancelGuards(m, u, o, budget);
    hide OrdersOk, Reserved, InWords, LookedUp, CancelOpen, CancelSucceeds, Unit;
    if Findable(m, o) {
      LookedUpBooked(m, o);
      if u in m.users && o.userId == u && !Seen(m, o).isClosed {
        if o in m.orders {
          CancelOpenBookedIff(m, o, budget);
        } else {
          ForeignCancelled(m, o, budget);
        }
      }
    }
  }

  // -------------------------------------------------------------------------
  // Waking
  // -------------------------------------------------------------------------

  /** Waking writes the row of an order, or inserts it. */
  lemma WakeOrdersOk(m: Models, o: Order, saved: bool)
    requires OrdersOk(m) && (o in m.orders || Foreign(m, o))
    ensures OrdersOk(Wake(m, o, saved))
  {
    var m' := Wake(m, o, saved);
    if o in m.orders {
      assert OrderOk(m, o);
      forall z | z in m.orders ensures WellFilled(z, m'.stored) && Linked(m', z) {
        assert OrderOk(m, z);
        if z.id == o.id { SameId(m, o, z); }
      }
      OrdersKept(m, m');
    } else if saved {
      ForeignJoins(m, o);
    }
  }

  /** Saving a woken stop-loss keeps the reserves right if and only if its object and its row agree on
      whether it is closed, or it holds nothing. */
  lemma WakeBookedIff(m: Models, o: Order, budget: nat)
    requires Booked(m) && Legal(m, WakeOp(o, budget))
    ensures Booked(Wake(m, o, budget > 0)) <==> !Misbooks(m, WakeOp(o, budget))
  {
    var m' := Wake(m, o, budget > 0);
    WakeOrdersOk(m, o, budget > 0);
    if o in m.orders {
      assert OrderOk(m, o);
      if budget > 0 {
        HoldingSaved(m, m', o);
        hide OrdersOk, Held, Unit;
        ReservedIff(m, m', o, o.userId);
      }
    } else if budget > 0 {
      hide OrdersOk, InWords, Reserved;
      ForeignJoins(m, o);
    }
  }

  lemma HoldingSaved(m: Models, m': Models, o: Order)
    requires OrderOk(m, o) && m' == Wake(m, o, true)
    ensures Held(m.deposits, m'.stored, o) == Held(m.deposits, m.stored, o)
            <==> !(o.id.side == BidSide && Unit(m.deposits, o) > 0 && Look(m.progress, o).isClosed != Look(m.stored, o).isClosed)
  {
    var unit, n := Unit(m.deposits, o), o.quantity - Look(m.stored, o).fulfilled;
    if o.id.side == BidSide && o.id in m.deposits {
      UnitNonNegative(unit, o.quantity);
      if n > 0 {
        LeftOver(unit, n, n);
      }
    }
  }

  // -------------------------------------------------------------------------
  // Runs
  // -------------------------------------------------------------------------

  /** Orders and reservations are left alone. */
  ghost predicate LeavesOrders(m: Models, m': Models) {
    && m'.orders == m.orders && m'.deposits == m.deposits
    && m'.progress == m.progress && m'.stored == m.stored && m'.entries == m.entries
    && m'.users.Keys == m.users.Keys
    && forall u :: u in m.users ==> m'.users[u].reservedCash == m.users[u].reservedCash
                                    && (m'.users[u].cash == m.users[u].cash || 0 <= m'.users[u].cash < TWO_64)
  }

  lemma OthersBooked(m: Models, m': Models)
    requires OrdersOk(m) && LeavesOrders(m, m')
    ensures OrdersOk(m') && (Booked(m) ==> Booked(m'))
  {
    forall x | x in m.orders ensures OrderOk(m', x) { assert OrderOk(m, x); }
  }

  lemma NobodyLeaves(m: Models)
    ensures LeavesOrders(m, m)
  {
  }

  /** At most one user's cash changes. */
  lemma OneUserLeaves(m: Models, m': Models, u: nat, cash: int)
    requires m'.orders == m.orders && m'.deposits == m.deposits
    requires m'.progress == m.progress && m'.stored == m.stored && m'.entries == m.entries
    requires u in m.users && m'.users == m.users[u := m.users[u].(cash := cash)] && 0 <= cash < TWO_64
    ensures LeavesOrders(m, m')
  {
  }

  lemma BuyLeavesOrders(m: Models, u: nat, s: nat, qty: nat, budget: nat)
    ensures LeavesOrders(m, BuyFromExchange(m, u, s, qty, budget).m)
  {
    hide BuyTax, Bought, TaxRows, BoughtQty, Wrap64, LeavesOrders;
    var r := BuyFromExchange(m, u, s, qty, budget);
    NobodyLeaves(m);
    if r.error.None? {
      OneUserLeaves(m, r.m, u, r.m.users[u].cash);
    }
  }

  lemma DepositLeavesOrders(m: Models, u: nat, s: nat, qty: nat)
    ensures LeavesOrders(m, Deposit(m, u, s, qty).m)
  {
    hide StockCount, DepositAmount, Wrap64, LeavesOrders;
    var r := Deposit(m, u, s, qty);
    NobodyLeaves(m);
    if r.error.None? {
      OneUserLeaves(m, r.m, u, r.m.users[u].cash);
    }
  }

  lemma RetrieveLeavesOrders(m: Models, u: nat, s: nat, qty: nat, price: nat)
    ensures LeavesOrders(m, Retrieve(m, u, s, qty, price).m)
  {
    hide RetrieveAmount, Wrap64, LeavesOrders;
    var r := Retrieve(m, u, s, qty, price);
    NobodyLeaves(m);
    if r.error.None? {
      OneUserLeaves(m, r.m, u, r.m.users[u].cash);
    }
  }

  lemma MortgageLeavesOrders(m: Models, u: nat, s: nat, qty: int, price: nat, budget: nat)
    ensures LeavesOrders(m, PerformMortgage(m, u, s, qty, price, budget).m)
  {
    if qty >= 0 {
      RetrieveLeavesOrders(m, u, s, qty, price);
    } else {
      DepositLeavesOrders(m, u, s, 0 - qty);
    }
    hide Retrieve, Deposit;
  }

  lemma SquareOffLeavesOrders(m: Models, i: nat)
    requires i < |m.lends|
    ensures LeavesOrders(m, SquareOff(m, i))
  {
    hide BankUpdated, LeavesOrders, Available, CurrentPrice, Row;
    if m.lends[i].isSquaredOff {
      NobodyLeaves(m);
    } else {
      NobodyChanges(m, SquareOff(m, i));
    }
  }

  lemma NobodyChanges(m: Models, m': Models)
    requires m'.orders == m.orders && m'.deposits == m.deposits && m'.users == m.users
    requires m'.progress == m.progress && m'.stored == m.stored && m'.entries == m.entries
    ensures LeavesOrders(m, m')
  {
  }

  /** Every legal step keeps the reserves right, except exactly those that use a reservation twice. */
  lemma StepBookedIff(m: Models, op: Op)
    requires Booked(m) && Legal(m, op)
    ensures Booked(Do(m, op)) <==> !Misbooks(m, op)
  {
    assert OrdersOk(m);
    hide PlaceBid, PlaceAsk, Fill, Accounts.Cancel, BuyFromExchange, PerformMortgage, SquareOff,
         Booked, Apart, Known, Foreign, Unit, LeavesOrders, Outdates, CancelSucceeds, Trades, ClosesShort, Wake;
    match op
    case PlaceBidOp(o, fee, budget) => PlaceBidBooked(m, o, fee, budget);
    case PlaceAskOp(o, fee, budget) => PlaceAskBooked(m, o, fee, budget);
    case FillOp(a, b, price, qty, budget) => FillBookedIff(m, a, b, price, qty, budget);
    case CancelOp(u, o, budget) => CancelBookedIff(m, u, o, budget);
    case BuyOp(u, s, qty, budget) =>
      BuyLeavesOrders(m, u, s, qty, budget);
      OthersBooked(m, Do(m, op));
    case MortgageOp(u, s, qty, price, budget) =>
      MortgageLeavesOrders(m, u, s, qty, price, budget);
      OthersBooked(m, Do(m, op));
    case SquareOffOp(i) =>
      if i < |m.lends| {
        SquareOffLeavesOrders(m, i);
        OthersBooked(m, Do(m, op));
      }
    case WakeOp(o, budget) => WakeBookedIff(m, o, budget);
  }

  lemma CancelInWords(m: Models, u: nat, o: Order, budget: nat)
    requires InWords(m)
    ensures InWords(Accounts.Cancel(m, u, o, budget).m)
  {
    hide MarkedClosed, TakenOut, LookedUp, Refund, Seen, Wrap64;
    if Accounts.Cancel(m, u, o, budget).error.None? {
      ReleasedShape(TakenOut(MarkedClosed(m, o), o), o, Seen(m, o));
    }
    hide Released;
  }

  lemma FillInWords(m: Models, a: Order, b: Order, price: nat, qty: nat, budget: nat)
    requires InWords(m) && a.id != b.id
    ensures InWords(Fill(m, a, b, price, qty, budget).m)
  {
    var r := Fill(m, a, b, price, qty, budget);
    if r.traded {
      TradeInWords(m, a, b, price, qty, budget);
    } else if r.bid == Done {
      ClosedShape(m, a, b, price, qty, budget);
      hide Fill, CashLeft, Refund;
    } else {
      NoFill(m, a, b, price, qty, budget);
      hide Fill, HalfCloses;
    }
  }

  lemma PlacingInWords(m: Models, o: Order, fee: nat, budget: nat)
    requires InWords(m)
    ensures InWords(PlaceBid(m, o, fee, budget).m) && InWords(PlaceAsk(m, o, fee, budget).m)
  {
    BidInWords(m, o, fee, budget);
    AskInWords(m, o, fee, budget);
    hide PlaceBid, PlaceAsk;
  }

  lemma BidInWords(m: Models, o: Order, fee: nat, budget: nat)
    requires InWords(m)
    ensures InWords(PlaceBid(m, o, fee, budget).m)
  {
    hide PriceError, OrderPrice;
  }

  lemma AskInWords(m: Models, o: Order, fee: nat, budget: nat)
    requires InWords(m)
    ensures InWords(PlaceAsk(m, o, fee, budget).m)
  {
    hide PriceError, ShortSellQty, ActiveLends, Available, AskPlaced;
    if PlaceAsk(m, o, fee, budget).recorded {
      AskPlacedIs(m, o, fee, ShortSellQty(m, o));
    }
  }

  /** Every legal step leaves cash in words. */
  lemma StepInWords(m: Models, op: Op)
    requires InWords(m) && Legal(m, op)
    ensures InWords(Do(m, op))
  {
    hide PlaceBid, PlaceAsk, Fill, Accounts.Cancel, BuyFromExchange, PerformMortgage, SquareOff, Known, Foreign;
    match op
    case PlaceBidOp(o, fee, budget) => PlacingInWords(m, o, fee, budget);
    case PlaceAskOp(o, fee, budget) => PlacingInWords(m, o, fee, budget);
    case FillOp(a, b, price, qty, budget) => FillInWords(m, a, b, price, qty, budget);
    case CancelOp(u, o, budget) => CancelInWords(m, u, o, budget);
    case BuyOp(u, s, qty, budget) => BuyLeavesOrders(m, u, s, qty, budget);
    case MortgageOp(u, s, qty, price, budget) => MortgageLeavesOrders(m, u, s, qty, price, budget);
    case SquareOffOp(i) => if i < |m.lends| { SquareOffLeavesOrders(m, i); }
    case WakeOp(o, budget) =>
  }

  /** The orders' rows and objects stay linked in every legal step that does not write an old copy over a
      row. */
  lemma StepOrdersOkIff(m: Models, op: Op)
    requires OrdersOk(m) && InWords(m) && Legal(m, op)
    ensures OrdersOk(Do(m, op)) <==> !Outdates(m, op)
  {
    hide PlaceBid, PlaceAsk, Fill, Accounts.Cancel, BuyFromExchange, PerformMortgage, SquareOff, Wake,
         OrdersOk, InWords, Known, Foreign, LeavesOrders, CancelSucceeds;
    match op
    case PlaceBidOp(o, fee, budget) => PlaceBidOrdersOk(m, o, fee, budget);
    case PlaceAskOp(o, fee, budget) => PlaceAskOrdersOk(m, o, fee, budget);
    case FillOp(a, b, price, qty, budget) => FillOrdersOk(m, a, b, price, qty, budget);
    case CancelOp(u, o, budget) => CancelOrdersOkIff(m, u, o, budget);
    case BuyOp(u, s, qty, budget) =>
      BuyLeavesOrders(m, u, s, qty, budget);
      OthersBooked(m, Do(m, op));
    case MortgageOp(u, s, qty, price, budget) =>
      MortgageLeavesOrders(m, u, s, qty, price, budget);
      OthersBooked(m, Do(m, op));
    case SquareOffOp(i) =>
      if i < |m.lends| {
        SquareOffLeavesOrders(m, i);
        OthersBooked(m, Do(m, op));
      }
    case WakeOp(o, budget) => WakeOrdersOk(m, o, budget > 0);
  }

  /** No step of the run uses a reservation twice. */
  ghost predicate NeverMisbooked(m: Models, ops: seq<Op>)
    decreases |ops|
  {
    ops != [] ==> !Misbooks(m, ops[0]) && NeverMisbooked(Do(m, ops[0]), ops[1..])
  }

  /** In every run of placements, fills, closes for lack of cash, cancellations and the rest, with any
      writes failing, each user's reserved cash stays the sum of what their open bids still need after
      every step, if and only if no step uses a reservation twice. */
  lemma {:induction false} ReservedCashIsOpenBids(m: Models, ops: seq<Op>)
    requires Booked(m) && LegalOps(m, ops)
    ensures AlwaysBooked(m, ops) <==> NeverMisbooked(m, ops)
    ensures NeverMisbooked(m, ops) ==> Booked(RunOps(m, ops))
    decreases |ops|
  {
    hide Booked, Misbooks, Legal, Do;
    if ops != [] {
      StepBookedIff(m, ops[0]);
      if Booked(Do(m, ops[0])) {
        ReservedCashIsOpenBids(Do(m, ops[0]), ops[1..]);
      }
    }
  }

  /** Reserves are right after every step. */
  ghost predicate AlwaysBooked(m: Models, ops: seq<Op>)
    decreases |ops|
  {
    Booked(m) && (ops != [] ==> AlwaysBooked(Do(m, ops[0]), ops[1..]))
  }

  /** So once the rows of all of a user's bids are closed, nothing is left in reserve. */
  lemma NothingHeldBack(m: Models, ops: seq<Op>, u: nat)
    requires Booked(m) && LegalOps(m, ops) && NeverMisbooked(m, ops) && u in m.users
    requires var r := RunOps(m, ops); forall o :: o in r.orders && o.userId == u && o.id.side == BidSide
                                                 ==> Look(r.stored, o).isClosed
    ensures u in RunOps(m, ops).users && RunOps(m, ops).users[u].reservedCash == 0
  {
    var r := RunOps(m, ops);
    ReservedCashIsOpenBids(m, ops);
    SumZero(r.orders, HeldBy(u, r.deposits, r.stored));
  }
}
