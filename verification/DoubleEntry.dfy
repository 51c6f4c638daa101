/** The ledger as double entry. A user's cash is an unsigned word: in every run it is the opening cash
    plus the ledger's totals modulo 2^64, so the two are equal exactly while that balance is a word; and
    the one step that can make a balance negative is a buyer's tax that exceeds their cash. */
module DoubleEntry {
  import opened Words
  import opened Orders
  import opened Wrappers
  import opened State
  import opened Taxes
  import opened Accounts
  import opened Sums
  import opened Reservations
  import opened OrderLife

  function CashOf(u: nat): Transaction -> int {
    (t: Transaction) => if t.userId == u then t.total else 0
  }

  function ReserveOf(u: nat): Transaction -> int {
    (t: Transaction) => if t.userId == u then t.reservedCashTotal else 0
  }

  /** What the ledger says of a user's cash. */
  function Ledger(m: Models, u: nat): int {
    Sum(m.rows, CashOf(u))
  }

  /** The part of a user's reserved cash that the ledger does not explain. */
  function ReserveDrift(m: Models, u: nat): int
    requires u in m.users
  {
    m.users[u].reservedCash - Sum(m.rows, ReserveOf(u))
  }

  /** No cost basis and no reservation is negative. */
  ghost predicate Costed(m: Models) {
    && (forall k :: k in m.summaries ==> m.summaries[k].price >= 0.0)
    && (forall id :: id in m.deposits ==> m.deposits[id] >= 0)
  }

  /** A purchase from the exchange goes through. */
  ghost predicate Buys(m: Models, v: nat, s: nat, qty: nat, budget: nat) {
    && qty <= BUY_LIMIT && v in m.users && s in m.stocks && BoughtQty(m, s, qty) > 0
    && var q, price := BoughtQty(m, s, qty), m.stocks[s].currentPrice;
       price * q <= m.users[v].cash && budget >= BuyWrites(BuyTax(SummaryOf(m, v, s), q, price, m.users[v].total))
  }

  lemma BuyGuards(m: Models, v: nat, s: nat, qty: nat, budget: nat)
    ensures BuyFromExchange(m, v, s, qty, budget).error.None? <==> Buys(m, v, s, qty, budget)
  {
    hide BuyTax, ExchangeBought, BuyWrites;
  }

  /** The unsigned subtraction of the buyer's tax wraps around. */
  ghost predicate TaxUnderflows(m: Models, op: Op, u: nat) {
    match op
    case FillOp(a, b, price, qty, budget) =>
      && u == b.userId && Trades(m, a, b, price, qty, budget)
      && BidTax(PartiesOf(m, a, b), price, qty) > CashLeft(PartiesOf(m, a, b), b, m.deposits[b.id], price, qty)
    case BuyOp(v, s, qty, budget) =>
      && u == v && Buys(m, v, s, qty, budget)
      && var q := BoughtQty(m, s, qty);
         BuyTax(SummaryOf(m, v, s), q, m.stocks[s].currentPrice, m.users[v].total)
         > m.users[v].cash - m.stocks[s].currentPrice * q
    case _ => false
  }

  /** The step takes more out of u's reserve than is in it. */
  ghost predicate Overdraws(m: Models, op: Op, u: nat)
    requires u in m.users
  {
    match op
    case FillOp(a, b, price, qty, budget) =>
      && u == b.userId
      && ((Trades(m, a, b, price, qty, budget)
           && Portion(m.deposits[b.id], qty, b.quantity) > m.users[u].reservedCash)
          || (ClosesShort(m, a, b, price, qty, budget)
              && Refund(b, Look(m.progress, b), m.deposits[b.id]) > m.users[u].reservedCash))
    case CancelOp(v, o, budget) =>
      && u == v && o.id.side == BidSide && CancelSucceeds(m, v, o, budget)
      && Refund(o, Seen(m, o), m.deposits[o.id]) > m.users[u].reservedCash
    case _ => false
  }

  /** Adding rows moves both sums by the rows' own. */
  lemma RowsJoin(m: Models, m': Models, rows: seq<Transaction>, u: nat)
    requires m'.rows == m.rows + rows
    ensures Sum(m'.rows, CashOf(u)) == Sum(m.rows, CashOf(u)) + Sum(rows, CashOf(u))
    ensures Sum(m'.rows, ReserveOf(u)) == Sum(m.rows, ReserveOf(u)) + Sum(rows, ReserveOf(u))
  {
    SumConcat(m.rows, rows, CashOf(u));
    SumConcat(m.rows, rows, ReserveOf(u));
  }

  lemma OneRow(t: Transaction, w: Transaction -> int)
    ensures Sum([t], w) == w(t)
  {
  }

  lemma TwoRows(t: Transaction, t': Transaction, w: Transaction -> int)
    ensures Sum([t, t'], w) == w(t) + w(t')
  {
    assert [t, t'] == [t] + [t'];
    SumConcat([t], [t'], w);
  }

  function Weigh(t: Transaction, w: Transaction -> int): int { w(t) }

  /** A trade's rows: one for the seller, one for the buyer, and those for the taxes. */
  lemma TradeRowsSum(a: Order, b: Order, x: Parties, reserved: int, price: nat, qty: nat, w: Transaction -> int)
    ensures var total, part := price * qty, Portion(reserved, qty, b.quantity);
            Sum(TradeRows(a, b, x, reserved, price, qty), w)
            == Weigh(Row(a.userId, a.stockId, OrderFill, 0 - qty, 0, price, 0, total), w)
               + Weigh(Row(b.userId, b.stockId, OrderFill, 0, qty, price, -part, part - total), w)
               + Sum(TaxRows(a.userId, a.stockId, AskTax(x, price, qty)), w)
               + Sum(TaxRows(b.userId, b.stockId, BidTax(x, price, qty)), w)
  {
    var total, part := price * qty, Portion(reserved, qty, b.quantity);
    var r0 := Row(a.userId, a.stockId, OrderFill, 0 - qty, 0, price, 0, total);
    var r1 := Row(b.userId, b.stockId, OrderFill, 0, qty, price, -part, part - total);
    var ta, tb := TaxRows(a.userId, a.stockId, AskTax(x, price, qty)), TaxRows(b.userId, b.stockId, BidTax(x, price, qty));
    hide TaxRows, AskTax, BidTax, Portion;
    SumConcat([r0, r1] + ta, tb, w);
    SumConcat([r0, r1], ta, w);
    TwoRows(r0, r1, w);
  }

  lemma TaxRowsSum(userId: nat, stockId: nat, tax: nat, u: nat)
    ensures Sum(TaxRows(userId, stockId, tax), CashOf(u)) == if u == userId then 0 - tax else 0
    ensures Sum(TaxRows(userId, stockId, tax), ReserveOf(u)) == 0
  {
  }

  // -------------------------------------------------------------------------
  // One step
  // -------------------------------------------------------------------------

  /** Cash moves by the ledger's total modulo 2^64, and the new balance is negative exactly when a tax
      underflows; reserved cash moves by the ledger's reserved total, save for an overdraft, which only
      ever adds to it. */
  ghost predicate Entered(m: Models, m': Models, u: nat, overdraws: bool, underflows: bool)
    requires u in m.users && u in m'.users
  {
    && (var balance := m.users[u].cash + Ledger(m', u) - Ledger(m, u);
        && m'.users[u].cash == Wrap64(balance)
        && (m.users[u].cash < TWO_63 ==> (balance < 0 <==> underflows)))
    && ReserveDrift(m, u) <= ReserveDrift(m', u)
    && (ReserveDrift(m', u) == ReserveDrift(m, u) <==> !overdraws)
  }

  ghost predicate Word(m: Models, u: nat) {
    u in m.users && 0 <= m.users[u].cash < TWO_64
  }

  lemma SameEntered(m: Models, m': Models, u: nat)
    requires Word(m, u) && m'.users == m.users && m'.rows == m.rows
    ensures Entered(m, m', u, false, false)
  {
  }

  lemma PlaceBidEntered(m: Models, o: Order, fee: nat, budget: nat, u: nat)
    requires Word(m, u)
    ensures Entered(m, PlaceBid(m, o, fee, budget).m, u, false, false)
  {
    var r := PlaceBid(m, o, fee, budget);
    if r.recorded {
      var reserve := OrderPrice(m, o) * o.quantity;
      var r0 := Row(o.userId, o.stockId, OrderFee, 0, 0, 0, 0, 0 - fee);
      var r1 := Row(o.userId, o.stockId, PlaceOrder, 0, 0, 0, reserve, 0 - reserve);
      hide Sum, OrderPrice, PriceError, Wrap64;
      RowsJoin(m, r.m, [r0, r1], u);
      TwoRows(r0, r1, CashOf(u));
      TwoRows(r0, r1, ReserveOf(u));
      SmallWord(m.users[u].cash);
    } else {
      hide Entered, BidError;
      SameEntered(m, r.m, u);
    }
  }

  lemma SmallWord(x: int)
    requires 0 <= x < TWO_64
    ensures Wrap64(x) == x
  {
  }

  lemma PlaceAskEntered(m: Models, o: Order, fee: nat, budget: nat, u: nat)
    requires Word(m, u)
    ensures Entered(m, PlaceAsk(m, o, fee, budget).m, u, false, false)
  {
    var r := PlaceAsk(m, o, fee, budget);
    if r.recorded {
      var short := ShortSellQty(m, o);
      var r0 := Row(o.userId, o.stockId, OrderFee, 0, 0, 0, 0, 0 - fee);
      var r1 := Row(o.userId, o.stockId, PlaceOrder, o.quantity, 0 - o.quantity, 0, 0, 0);
      var lent := if short > 0 then [Row(o.userId, o.stockId, ShortSell, 0, short, CurrentPrice(m, o.stockId), 0, 0)] else [];
      AskPlacedIs(m, o, fee, short);
      assert r.m.rows == m.rows + ([r0] + lent + [r1]);
      assert Signed64(m.users[o.userId].cash) - fee >= MINIMUM_CASH_LIMIT;
      hide AskError, Sum, ShortSellQty, Wrap64, AskPlaced;
      RowsJoin(m, r.m, [r0] + lent + [r1], u);
      LentRowsSum(r0, lent, r1, CashOf(u));
      LentRowsSum(r0, lent, r1, ReserveOf(u));
      SmallWord(m.users[u].cash);
    } else {
      hide Entered, AskError, ShortSellQty;
      SameEntered(m, r.m, u);
    }
  }

  lemma LentRowsSum(r0: Transaction, lent: seq<Transaction>, r1: Transaction, w: Transaction -> int)
    requires |lent| <= 1
    ensures Sum([r0] + lent + [r1], w) == w(r0) + (if lent == [] then 0 else w(lent[0])) + w(r1)
  {
    SumConcat([r0] + lent, [r1], w);
    SumConcat([r0], lent, w);
    OneRow(r0, w);
    OneRow(r1, w);
    if lent != [] {
      assert lent == [lent[0]];
      OneRow(lent[0], w);
    }
  }

  /** What a cancellation that succeeds writes. */
  lemma CancelRows(m: Models, userId: nat, o: Order, budget: nat)
    requires Accounts.Cancel(m, userId, o, budget).error.None?
    ensures userId == o.userId && userId in m.users && (o.id.side == BidSide ==> o.id in m.deposits)
    ensures var m' := Accounts.Cancel(m, userId, o, budget).m;
            if o.id.side == AskSide then
              var q := Unfulfilled(o, Seen(m, o));
              m'.users == m.users && m'.rows == m.rows + [Row(o.userId, o.stockId, CancelOrder, 0 - q, q, 0, 0, 0)]
            else
              var refund := Refund(o, Seen(m, o), m.deposits[o.id]);
              && m'.users == m.users[userId := Refunded(m.users[userId], refund)]
              && m'.rows == m.rows + [RefundRow(o, refund)]
  {
    hide Refund, Refunded, RefundRow, MarkedClosed, TakenOut, Seen;
  }

  /** A refund is entered exactly, unless the reserve is overdrawn. */
  lemma RefundEntered(m: Models, m': Models, o: Order, refund: int, u: nat)
    requires Word(m, u) && o.userId in m.users && refund >= 0
    requires m'.users == m.users[o.userId := Refunded(m.users[o.userId], refund)] && m'.rows == m.rows + [RefundRow(o, refund)]
    ensures Entered(m, m', u, u == o.userId && refund > m.users[u].reservedCash, false)
  {
    hide Sum, Wrap64;
    RowsJoin(m, m', [RefundRow(o, refund)], u);
    OneRow(RefundRow(o, refund), CashOf(u));
    OneRow(RefundRow(o, refund), ReserveOf(u));
    SmallWord(m.users[u].cash);
  }

  lemma RefundNonNegative(o: Order, p: Progress, reserved: int)
    requires reserved >= 0
    ensures Refund(o, p, reserved) >= 0 && forall q: nat :: Portion(reserved, q, o.quantity) >= 0
  {
  }

  /** A row that moves neither cash nor reserve. */
  lemma NothingEntered(m: Models, m': Models, t: Transaction, u: nat)
    requires Word(m, u) && m'.users == m.users && m'.rows == m.rows + [t] && t.total == 0 == t.reservedCashTotal
    ensures Entered(m, m', u, false, false)
  {
    RowsJoin(m, m', [t], u);
    OneRow(t, CashOf(u));
    OneRow(t, ReserveOf(u));
    hide Sum;
  }

  lemma CancelEntered(m: Models, userId: nat, o: Order, budget: nat, u: nat)
    requires Costed(m) && Word(m, u)
    ensures Entered(m, Accounts.Cancel(m, userId, o, budget).m, u, Overdraws(m, CancelOp(userId, o, budget), u), false)
  {
    var r := Accounts.Cancel(m, userId, o, budget);
    CancelGuards(m, userId, o, budget);
    hide Refund, Entered, Seen, Unfulfilled, CancelSucceeds;
    if r.error.None? {
      CancelRows(m, userId, o, budget);
      hide Accounts.Cancel;
      if o.id.side == AskSide {
        var q: int := Unfulfilled(o, Seen(m, o));
        NothingEntered(m, r.m, Row(o.userId, o.stockId, CancelOrder, 0 - q, q, 0, 0, 0), u);
      } else {
        RefundNonNegative(o, Seen(m, o), m.deposits[o.id]);
        RefundEntered(m, r.m, o, Refund(o, Seen(m, o), m.deposits[o.id]), u);
      }
    } else {
      FailedCancelKeeps(m, userId, o, budget);
      hide Accounts.Cancel;
      SameEntered(m, r.m, u);
    }
  }

  lemma FailedCancelKeeps(m: Models, userId: nat, o: Order, budget: nat)
    requires Accounts.Cancel(m, userId, o, budget).error.Some?
    ensures var m' := Accounts.Cancel(m, userId, o, budget).m; m'.users == m.users && m'.rows == m.rows
  {
    hide CancelOpen, Seen, LookedUp;
    if userId in m.users && Findable(m, o) && o.userId == userId && !Seen(m, o).isClosed {
      CancelOpenShape(m, o, budget);
    }
  }

  lemma BuyWrote(m: Models, v: nat, s: nat, qty: nat, budget: nat)
    requires BuyFromExchange(m, v, s, qty, budget).error.None?
    ensures v in m.users && s in m.stocks
    ensures var r, q, price := BuyFromExchange(m, v, s, qty, budget), BoughtQty(m, s, qty), m.stocks[s].currentPrice;
            var cost: int, tax := price * q, BuyTax(SummaryOf(m, v, s), q, price, m.users[v].total);
            && cost <= m.users[v].cash && q > 0
            && r.m.rows == m.rows + ([Row(v, s, FromExchange, 0, q, price, 0, 0 - cost)] + TaxRows(v, s, tax))
            && r.m.users == m.users[v := m.users[v].(cash := Wrap64(m.users[v].cash - cost - tax))]
            && r.m.summaries == m.summaries[(v, s) := Bought(SummaryOf(m, v, s), q, price)]
            && r.m.deposits == m.deposits
  {
    hide BuyTax, Bought, TaxRows, Wrap64;
    assert BoughtQty(m, s, qty) == 0 || s in m.stocks;
  }

  lemma PurchaseEntered(m: Models, m': Models, v: nat, s: nat, q: nat, price: nat, cost: int, tax: nat, u: nat)
    requires Word(m, u) && v in m.users && 0 <= cost <= m.users[v].cash
    requires m'.rows == m.rows + ([Row(v, s, FromExchange, 0, q, price, 0, 0 - cost)] + TaxRows(v, s, tax))
    requires m'.users == m.users[v := m.users[v].(cash := Wrap64(m.users[v].cash - cost - tax))]
    ensures Entered(m, m', u, false, u == v && tax > m.users[v].cash - cost)
  {
    var t := Row(v, s, FromExchange, 0, q, price, 0, 0 - cost);
    hide TaxRows, Sum, Wrap64;
    RowsJoin(m, m', [t] + TaxRows(v, s, tax), u);
    SumConcat([t], TaxRows(v, s, tax), CashOf(u));
    SumConcat([t], TaxRows(v, s, tax), ReserveOf(u));
    TaxRowsSum(v, s, tax, u);
    OneRow(t, CashOf(u));
    OneRow(t, ReserveOf(u));
    SmallWord(m.users[u].cash);
  }

  lemma BuyEntered(m: Models, v: nat, s: nat, qty: nat, budget: nat, u: nat)
    requires Word(m, u)
    ensures Entered(m, BuyFromExchange(m, v, s, qty, budget).m, u, false, TaxUnderflows(m, BuyOp(v, s, qty, budget), u))
  {
    var r := BuyFromExchange(m, v, s, qty, budget);
    BuyGuards(m, v, s, qty, budget);
    hide Entered, BuyTax, BoughtQty, Buys;
    if r.error.None? {
      BuyWrote(m, v, s, qty, budget);
      hide BuyFromExchange, Wrap64, TaxRows, Bought;
      var q, price := BoughtQty(m, s, qty), m.stocks[s].currentPrice;
      PurchaseEntered(m, r.m, v, s, q, price, price * q, BuyTax(SummaryOf(m, v, s), q, price, m.users[v].total), u);
    } else {
      SameEntered(m, r.m, u);
    }
  }

  /** Retrieving costs no more than the stocks' worth, which the user must have. */
  lemma RetrieveCosts(price: nat, qty: nat)
    ensures 0 <= -RetrieveAmount(price, qty) <= qty * price
    ensures DepositAmount(price, qty) >= 0
  {
  }

  lemma DepositEntered(m: Models, v: nat, s: nat, qty: nat, u: nat)
    requires Word(m, u)
    ensures Entered(m, Deposit(m, v, s, qty).m, u, false, false)
  {
    var d, p := Deposit(m, v, s, qty), CurrentPrice(m, s);
    RetrieveCosts(p, qty);
    hide DepositAmount, StockCount, Sum, Wrap64;
    SmallWord(m.users[u].cash);
    if d.error.None? {
      var t := Row(v, s, Mortgage, 0, 0 - qty, p, 0, DepositAmount(p, qty));
      RowsJoin(m, d.m, [t], u);
      OneRow(t, CashOf(u));
      OneRow(t, ReserveOf(u));
    }
  }

  lemma RetrieveEntered(m: Models, v: nat, s: nat, qty: nat, price: nat, u: nat)
    requires Word(m, u)
    ensures Entered(m, Retrieve(m, v, s, qty, price).m, u, false, false)
  {
    var r := Retrieve(m, v, s, qty, price);
    RetrieveCosts(price, qty);
    hide RetrieveAmount, Sum, Wrap64;
    SmallWord(m.users[u].cash);
    if r.error.None? {
      var t := Row(v, s, Mortgage, 0, qty, price, 0, RetrieveAmount(price, qty));
      RowsJoin(m, r.m, [t], u);
      OneRow(t, CashOf(u));
      OneRow(t, ReserveOf(u));
    }
  }

  lemma MortgageEntered(m: Models, v: nat, s: nat, qty: int, price: nat, budget: nat, u: nat)
    requires Word(m, u)
    ensures Entered(m, PerformMortgage(m, v, s, qty, price, budget).m, u, false, false)
  {
    hide Deposit, Retrieve, Entered;
    SameEntered(m, m, u);
    if qty >= 0 {
      RetrieveEntered(m, v, s, qty, price, u);
    } else {
      DepositEntered(m, v, s, 0 - qty, u);
    }
  }

  lemma SquareOffEntered(m: Models, i: nat, u: nat)
    requires Word(m, u) && i < |m.lends|
    ensures Entered(m, SquareOff(m, i), u, false, false)
  {
    var l := m.lends[i];
    hide Entered;
    if l.isSquaredOff {
      SameEntered(m, m, u);
    } else {
      NothingEntered(m, SquareOff(m, i),
                     Row(l.userId, l.stockId, ShortSell, 0, 0 - l.stockQuantity, CurrentPrice(m, l.stockId), 0, 0), u);
    }
  }

  // -------------------------------------------------------------------------
  // Fills
  // -------------------------------------------------------------------------

  /** The rows a trade adds, as they affect user u. */
  lemma TradeRowsFor(a: Order, b: Order, x: Parties, reserved: int, price: nat, qty: nat, u: nat)
    requires a.userId != b.userId
    ensures var rows, part := TradeRows(a, b, x, reserved, price, qty), Portion(reserved, qty, b.quantity);
            && Sum(rows, CashOf(u)) == (if u == a.userId then price * qty - AskTax(x, price, qty)
                                        else if u == b.userId then part - price * qty - BidTax(x, price, qty)
                                        else 0)
            && Sum(rows, ReserveOf(u)) == if u == b.userId then 0 - part else 0
  {
    hide AskTax, BidTax, Portion, TaxRows;
    TradeRowsSum(a, b, x, reserved, price, qty, CashOf(u));
    TradeRowsSum(a, b, x, reserved, price, qty, ReserveOf(u));
    TaxRowsSum(a.userId, a.stockId, AskTax(x, price, qty), u);
    TaxRowsSum(b.userId, b.stockId, BidTax(x, price, qty), u);
    hide TradeRows, Sum;
  }

  /** Both sides of a trade, once the rows are summed. */
  lemma TradeSidesEntered(m: Models, m': Models, asker: nat, bidder: nat, total: nat, askTax: nat, bidTax: nat,
                          part: int, left: int, u: nat)
    requires Word(m, u) && asker in m.users && bidder in m.users && asker != bidder && askTax <= total && part >= 0
    requires left == Signed64(m.users[bidder].cash) - total + part && left >= 0
    requires m'.users == m.users[asker := m.users[asker].(cash := Wrap64(m.users[asker].cash + total - askTax))]
                                [bidder := m.users[bidder].(cash := Wrap64(left - bidTax),
                                                            reservedCash := Max0(m.users[bidder].reservedCash - part))]
    requires Ledger(m', u) == Ledger(m, u) + (if u == asker then total - askTax
                                              else if u == bidder then part - total - bidTax else 0)
    requires Sum(m'.rows, ReserveOf(u)) == Sum(m.rows, ReserveOf(u)) - if u == bidder then part else 0
    ensures Entered(m, m', u, u == bidder && part > m.users[u].reservedCash, u == bidder && bidTax > left)
  {
    SmallWord(m.users[u].cash);
    WrapSigned(m.users[bidder].cash, part - total - bidTax);
    hide Sum, Wrap64, Ledger;
  }

  lemma TradeFlags(m: Models, a: Order, b: Order, price: nat, qty: nat, budget: nat, u: nat)
    requires u in m.users && Fill(m, a, b, price, qty, budget).traded
    requires a.userId in m.users && b.userId in m.users && b.id in m.deposits
    ensures var x, op, reserved := PartiesOf(m, a, b), FillOp(a, b, price, qty, budget), m.deposits[b.id];
            && (Overdraws(m, op, u) <==> u == b.userId && Portion(reserved, qty, b.quantity) > m.users[u].reservedCash)
            && (TaxUnderflows(m, op, u) <==> u == b.userId && BidTax(x, price, qty) > CashLeft(x, b, reserved, price, qty))
  {
    FillGuards(m, a, b, price, qty, budget);
    hide Fill, Portion, AskTax, BidTax, CashLeft, Refund, FillWrites;
  }

  lemma TradeEntered(m: Models, a: Order, b: Order, price: nat, qty: nat, budget: nat, u: nat)
    requires Costed(m) && Word(m, u) && Fill(m, a, b, price, qty, budget).traded
    ensures var op := FillOp(a, b, price, qty, budget);
            Entered(m, Fill(m, a, b, price, qty, budget).m, u, Overdraws(m, op, u), TaxUnderflows(m, op, u))
  {
    TradeShape(m, a, b, price, qty, budget);
    TradeFlags(m, a, b, price, qty, budget, u);
    var x, m', reserved := PartiesOf(m, a, b), Fill(m, a, b, price, qty, budget).m, m.deposits[b.id];
    hide Fill, AskTax, BidTax, Portion, TradeRows, Sum, Wrap64, Refund, Costed, Entered, Max0, Overdraws, TaxUnderflows;
    AskTaxPaid(m, a, b, price, qty);
    RowsJoin(m, m', TradeRows(a, b, x, reserved, price, qty), u);
    TradeRowsFor(a, b, x, reserved, price, qty, u);
    PartNonNegative(m, b, qty);
    TradeSidesEntered(m, m', a.userId, b.userId, qty * price, AskTax(x, price, qty), BidTax(x, price, qty),
                      Portion(reserved, qty, b.quantity), CashLeft(x, b, reserved, price, qty), u);
  }

  lemma PartNonNegative(m: Models, b: Order, qty: nat)
    requires Costed(m) && b.id in m.deposits
    ensures Portion(m.deposits[b.id], qty, b.quantity) >= 0
  {
    RefundNonNegative(b, Look(m.progress, b), m.deposits[b.id]);
  }

  /** The seller's tax never exceeds what they are paid. */
  lemma AskTaxPaid(m: Models, a: Order, b: Order, price: nat, qty: nat)
    requires Costed(m) && a.userId in m.users && b.userId in m.users
    ensures AskTax(PartiesOf(m, a, b), price, qty) <= qty * price
  {
    var x := PartiesOf(m, a, b);
    SellTaxAtMostQuarter(x.askSum, qty, price, x.asker.total);
    hide SellTax;
  }

  lemma FillEntered(m: Models, a: Order, b: Order, price: nat, qty: nat, budget: nat, u: nat)
    requires Costed(m) && Word(m, u) && a.id != b.id
    ensures var op := FillOp(a, b, price, qty, budget);
            Entered(m, Fill(m, a, b, price, qty, budget).m, u, Overdraws(m, op, u), TaxUnderflows(m, op, u))
  {
    var r := Fill(m, a, b, price, qty, budget);
    FillGuards(m, a, b, price, qty, budget);
    hide Entered, Refund, Trades, ClosesShort, Portion;
    if r.traded {
      TradeEntered(m, a, b, price, qty, budget, u);
    } else if r.bid == Done {
      ClosedShape(m, a, b, price, qty, budget);
      hide Fill, CashLeft;
      RefundNonNegative(b, Look(m.progress, b), m.deposits[b.id]);
      RefundEntered(m, r.m, b, Refund(b, Look(m.progress, b), m.deposits[b.id]), u);
    } else {
      NoFill(m, a, b, price, qty, budget);
      hide Fill, HalfCloses;
      SameEntered(m, r.m, u);
    }
  }

  /** A trade only moves cash between the two users: together they lose exactly the taxes, if and only
      if the buyer's tax does not underflow. */
  lemma FillLosesOnlyTaxes(m: Models, a: Order, b: Order, price: nat, qty: nat, budget: nat)
    requires Costed(m) && InWords(m) && Fill(m, a, b, price, qty, budget).traded
    requires a.userId in m.users && b.userId in m.users
    requires !Overdraws(m, FillOp(a, b, price, qty, budget), b.userId)
    requires m.users[a.userId].cash + qty * price < TWO_64 && Funds(m, b.userId) < TWO_63
    requires m.users[b.userId].reservedCash >= 0
    ensures var m', x := Fill(m, a, b, price, qty, budget).m, PartiesOf(m, a, b);
            && (Funds(m', a.userId) + Funds(m', b.userId)
                == Funds(m, a.userId) + Funds(m, b.userId) - AskTax(x, price, qty) - BidTax(x, price, qty)
                <==> !TaxUnderflows(m, FillOp(a, b, price, qty, budget), b.userId))
            && forall u :: u in m.users && u != a.userId && u != b.userId ==> m'.users[u] == m.users[u]
  {
    TradeShape(m, a, b, price, qty, budget);
    var x := PartiesOf(m, a, b);
    AskTaxPaid(m, a, b, price, qty);
    RefundNonNegative(b, x.bid, m.deposits[b.id]);
    hide Fill, AskTax, BidTax, Portion, TradeRows, Costed, Wrap64;
    SmallWord(x.asker.cash + qty * price - AskTax(x, price, qty));
    FillGuards(m, a, b, price, qty, budget);
    hide Trades, ClosesShort;
  }

  function Funds(m: Models, u: nat): int
    requires u in m.users
  {
    m.users[u].cash + m.users[u].reservedCash
  }

  // -------------------------------------------------------------------------
  // Cost bases and reservations stay non-negative
  // -------------------------------------------------------------------------

  lemma DealKeepsCost(s: Option<Summary>, d: Deal)
    requires d.quantity > 0 && (s.Some? ==> s.value.price >= 0.0)
    ensures After(s, d).price >= 0.0
  {
    var p := d.price as real;
    AfterInRange(s, d, 0.0, if s.Some? && s.value.price > p then s.value.price else p);
  }

  lemma TradeSummaries(m: Models, a: Order, b: Order, price: nat, qty: nat, budget: nat)
    requires Fill(m, a, b, price, qty, budget).traded
    ensures a.userId in m.users && b.userId in m.users && qty > 0
    ensures var m', x := Fill(m, a, b, price, qty, budget).m, PartiesOf(m, a, b);
            m'.summaries == m.summaries[(a.userId, a.stockId) := Sold(x.askSum, qty, price)]
                                       [(b.userId, b.stockId) := Bought(x.bidSum, qty, price)]
  {
    hide AskTax, BidTax, TradeRows, StockAfterTrade, Sold, Bought, Portion, CashLeft, FillWrites;
  }

  lemma TradeCosted(m: Models, a: Order, b: Order, price: nat, qty: nat, budget: nat)
    requires Costed(m) && Fill(m, a, b, price, qty, budget).traded
    ensures Costed(Fill(m, a, b, price, qty, budget).m)
  {
    TradeSummaries(m, a, b, price, qty, budget);
    FillKeepsTable(m, a, b, price, qty, budget);
    var x := PartiesOf(m, a, b);
    hide Fill, Sold, Bought;
    DealKeepsCost(x.askSum, Deal(false, qty, price));
    DealKeepsCost(x.bidSum, Deal(true, qty, price));
  }

  lemma NoTradeCosted(m: Models, a: Order, b: Order, price: nat, qty: nat, budget: nat)
    requires Costed(m) && !Fill(m, a, b, price, qty, budget).traded
    ensures Costed(Fill(m, a, b, price, qty, budget).m)
  {
    FillKeepsTable(m, a, b, price, qty, budget);
    SummariesKept(m, a, b, price, qty, budget);
    hide Fill;
  }

  lemma CoreSummaries(a: Order, b: Order, x: Parties, reserved: Option<int>, price: nat, qty: nat, budget: nat)
    requires qty > 0 || x.ask.isClosed || x.bid.isClosed
    requires !FillCore(a, b, x, reserved, price, qty, budget).traded
    ensures var r := FillCore(a, b, x, reserved, price, qty, budget); r.x.askSum == x.askSum && r.x.bidSum == x.bidSum
  {
    hide AskTax, BidTax, TradeRows, Refund, CashLeft, FillWrites, Refunded, Traded, RefundRow;
  }

  lemma ResultSummaries(m: Models, a: Order, b: Order, r: FillOutcome, price: nat, qty: nat, budget: nat)
    requires a.userId in m.users && b.userId in m.users && !r.traded
    requires r.x.askSum == SummaryOf(m, a.userId, a.stockId) && r.x.bidSum == SummaryOf(m, b.userId, b.stockId)
    ensures FillResultOf(m, a, b, r, price, qty, budget).m.summaries == m.summaries
  {
    SameSummary(m, a.userId, a.stockId);
    SameSummary(m, b.userId, b.stockId);
    hide PutSummary, SummaryOf, StockAfterTrade, PutEntry;
  }

  lemma SummariesKept(m: Models, a: Order, b: Order, price: nat, qty: nat, budget: nat)
    requires !Fill(m, a, b, price, qty, budget).traded
    ensures Fill(m, a, b, price, qty, budget).m.summaries == m.summaries
  {
    hide FillCore, SummaryOf, FillResultOf;
    if a.userId in m.users && b.userId in m.users && a.userId != b.userId
       && (qty > 0 || Look(m.progress, a).isClosed || Look(m.progress, b).isClosed) {
      var r := FillCore(a, b, PartiesOf(m, a, b), DepositOf(m, b.id), price, qty, budget);
      ResultTrades(m, a, b, r, price, qty, budget);
      CoreSummaries(a, b, PartiesOf(m, a, b), DepositOf(m, b.id), price, qty, budget);
      ResultSummaries(m, a, b, r, price, qty, budget);
    }
  }

  lemma ResultTrades(m: Models, a: Order, b: Order, r: FillOutcome, price: nat, qty: nat, budget: nat)
    requires a.userId in m.users && b.userId in m.users
    ensures FillResultOf(m, a, b, r, price, qty, budget).traded == r.traded
  {
    hide Store, StockAfterTrade, PutEntry, FillWrites;
  }

  lemma SameSummary(m: Models, u: nat, s: nat)
    ensures PutSummary(m.summaries, u, s, SummaryOf(m, u, s)) == m.summaries
  {
  }

  lemma BuyCosted(m: Models, v: nat, s: nat, qty: nat, budget: nat)
    requires Costed(m)
    ensures Costed(BuyFromExchange(m, v, s, qty, budget).m)
  {
    var r := BuyFromExchange(m, v, s, qty, budget);
    if r.error.None? {
      BuyWrote(m, v, s, qty, budget);
      hide BuyFromExchange, Bought, BuyTax, BoughtQty, Wrap64, TaxRows;
      DealKeepsCost(SummaryOf(m, v, s), Deal(true, BoughtQty(m, s, qty), m.stocks[s].currentPrice));
    }
  }

  lemma BidCosted(m: Models, o: Order, fee: nat, budget: nat)
    requires Costed(m)
    ensures Costed(PlaceBid(m, o, fee, budget).m)
  {
    hide BidError, OrderPrice, Wrap64, Row;
  }

  lemma AskCosted(m: Models, o: Order, fee: nat, budget: nat)
    requires Costed(m)
    ensures Costed(PlaceAsk(m, o, fee, budget).m)
  {
    if PlaceAsk(m, o, fee, budget).recorded {
      AskPlacedIs(m, o, fee, ShortSellQty(m, o));
    }
    hide PriceError, ShortSellQty, AskPlaced, ActiveLends, Available, Wrap64;
  }

  lemma CancelCosted(m: Models, v: nat, o: Order, budget: nat)
    requires Costed(m)
    ensures Costed(Accounts.Cancel(m, v, o, budget).m)
  {
    CancelKeepsTable(m, v, o, budget);
    CancelElsewhere(m, v, o, budget);
    hide Accounts.Cancel;
  }

  /** A cancellation concerns neither summaries nor stocks nor the banks. */
  ghost predicate SameBanks(m: Models, m': Models) {
    && m'.summaries == m.summaries && m'.stocks == m.stocks
    && m'.lendBank == m.lendBank && m'.lends == m.lends && m'.mortgages == m.mortgages
  }

  lemma CancelElsewhere(m: Models, v: nat, o: Order, budget: nat)
    ensures SameBanks(m, Accounts.Cancel(m, v, o, budget).m)
  {
    hide CancelOpen, Seen, LookedUp;
    if o.userId in m.users {
      OpenCancelElsewhere(m, o, budget);
    }
  }

  lemma OpenCancelElsewhere(m: Models, o: Order, budget: nat)
    requires o.userId in m.users
    ensures SameBanks(m, CancelOpen(m, o, budget).m)
  {
    var m1 := MarkedClosed(m, o);
    var m2 := TakenOut(m1, o);
    assert SameBanks(m, m1) && SameBanks(m, m2);
    hide Seen, LookedUp, TakenOut, MarkedClosed, Released;
  }

  lemma MortgageCosted(m: Models, v: nat, s: nat, qty: int, price: nat, budget: nat)
    requires Costed(m)
    ensures Costed(PerformMortgage(m, v, s, qty, price, budget).m)
  {
    hide StockCount, RetrieveAmount, DepositAmount, Wrap64;
    var r := PerformMortgage(m, v, s, qty, price, budget);
    assert r.m.summaries == m.summaries && r.m.deposits == m.deposits;
    hide PerformMortgage;
  }

  lemma StepCosted(m: Models, op: Op)
    requires Costed(m)
    ensures Costed(Do(m, op))
  {
    hide PlaceBid, PlaceAsk, Fill, Accounts.Cancel, BuyFromExchange, PerformMortgage, BankUpdated;
    match op
    case PlaceBidOp(o, fee, budget) => BidCosted(m, o, fee, budget);
    case PlaceAskOp(o, fee, budget) => AskCosted(m, o, fee, budget);
    case FillOp(a, b, price, qty, budget) =>
      if Fill(m, a, b, price, qty, budget).traded {
        TradeCosted(m, a, b, price, qty, budget);
      } else {
        NoTradeCosted(m, a, b, price, qty, budget);
      }
    case CancelOp(v, o, budget) => CancelCosted(m, v, o, budget);
    case BuyOp(v, s, qty, budget) => BuyCosted(m, v, s, qty, budget);
    case MortgageOp(v, s, qty, price, budget) => MortgageCosted(m, v, s, qty, price, budget);
    case SquareOffOp(i) =>
    case WakeOp(o, budget) =>
  }

  // -------------------------------------------------------------------------
  // Runs
  // -------------------------------------------------------------------------

  /** A fill is of an ask and a bid. */
  ghost predicate Paired(op: Op) {
    op.FillOp? ==> op.ask.id != op.bid.id
  }

  ghost predicate AllPaired(ops: seq<Op>) {
    forall op :: op in ops ==> Paired(op)
  }

  lemma StepEntered(m: Models, op: Op, u: nat)
    requires Costed(m) && Word(m, u) && Paired(op)
    ensures Entered(m, Do(m, op), u, Overdraws(m, op, u), TaxUnderflows(m, op, u))
  {
    hide PlaceBid, PlaceAsk, Fill, Accounts.Cancel, BuyFromExchange, PerformMortgage, SquareOff, Costed, Entered;
    match op
    case PlaceBidOp(o, fee, budget) => PlaceBidEntered(m, o, fee, budget, u);
    case PlaceAskOp(o, fee, budget) => PlaceAskEntered(m, o, fee, budget, u);
    case FillOp(a, b, price, qty, budget) => FillEntered(m, a, b, price, qty, budget, u);
    case CancelOp(v, o, budget) => CancelEntered(m, v, o, budget, u);
    case BuyOp(v, s, qty, budget) => BuyEntered(m, v, s, qty, budget, u);
    case MortgageOp(v, s, qty, price, budget) => MortgageEntered(m, v, s, qty, price, budget, u);
    case SquareOffOp(i) => if i < |m.lends| { SquareOffEntered(m, i, u); } else { SameEntered(m, m, u); }
    case WakeOp(o, budget) => SameEntered(m, Do(m, op), u);
  }

  /** In every run a user's cash is the opening cash plus the ledger's totals, modulo 2^64; so it is
      exactly that sum whenever the sum is a word, whatever happened before. */
  lemma {:induction false} LedgerBalances(m: Models, ops: seq<Op>, u: nat)
    requires Costed(m) && Word(m, u) && AllPaired(ops)
    ensures var r := RunOps(m, ops); var balance := m.users[u].cash + Ledger(r, u) - Ledger(m, u);
            && u in r.users && r.users[u].cash == Wrap64(balance)
            && (r.users[u].cash == balance <==> 0 <= balance < TWO_64)
    decreases |ops|
  {
    hide Costed, Do, TaxUnderflows, Overdraws, Ledger, ReserveDrift, Wrap64;
    if ops == [] {
      SmallWord(m.users[u].cash);
    } else {
      var m1, r := Do(m, ops[0]), RunOps(m, ops);
      StepEntered(m, ops[0], u);
      StepCosted(m, ops[0]);
      WrapAdd(m.users[u].cash + Ledger(m1, u) - Ledger(m, u), Ledger(r, u) - Ledger(m1, u));
      LedgerBalances(m1, ops[1..], u);
    }
  }

  /** The step leaves the user with cash equal to cash before plus the ledger's movement. */
  ghost predicate AlwaysExact(m: Models, ops: seq<Op>, u: nat)
    requires u in m.users
    decreases |ops|
  {
    ops != [] ==>
      var m' := Do(m, ops[0]);
      m'.users[u].cash == m.users[u].cash + Ledger(m', u) - Ledger(m, u) && AlwaysExact(m', ops[1..], u)
  }

  /** No balance ever reaches 2^63. */
  ghost predicate StaysSmall(m: Models, ops: seq<Op>, u: nat)
    requires u in m.users
    decreases |ops|
  {
    m.users[u].cash < TWO_63 &&
    (ops != [] ==>
       var m' := Do(m, ops[0]);
       m.users[u].cash + Ledger(m', u) - Ledger(m, u) < TWO_63
       && (m'.users[u].cash == m.users[u].cash + Ledger(m', u) - Ledger(m, u) ==> StaysSmall(m', ops[1..], u)))
  }

  /** No step of the run makes user u's tax underflow. */
  ghost predicate TaxesCovered(m: Models, ops: seq<Op>, u: nat)
    decreases |ops|
  {
    ops != [] ==> !TaxUnderflows(m, ops[0], u) && TaxesCovered(Do(m, ops[0]), ops[1..], u)
  }

  /** Cash and ledger stay equal after every step of a run, and nobody is ever in debt, if and only if
      no buyer's tax underflows. */
  lemma {:induction false} ExactIffTaxesCovered(m: Models, ops: seq<Op>, u: nat)
    requires Costed(m) && Word(m, u) && AllPaired(ops) && StaysSmall(m, ops, u)
    ensures AlwaysExact(m, ops, u) <==> TaxesCovered(m, ops, u)
    decreases |ops|
  {
    hide Costed, Do, TaxUnderflows, Overdraws, Ledger, ReserveDrift;
    if ops != [] {
      StepEntered(m, ops[0], u);
      StepCosted(m, ops[0]);
      if !TaxUnderflows(m, ops[0], u) {
        ExactIffTaxesCovered(Do(m, ops[0]), ops[1..], u);
      }
    }
  }

  /** So while taxes are covered and balances stay below 2^63, a user's cash is the ledger's balance, which
      is never negative, and no cost basis ever falls below zero. */
  lemma {:induction false} NeverInDebt(m: Models, ops: seq<Op>, u: nat)
    requires Costed(m) && Word(m, u) && AllPaired(ops) && StaysSmall(m, ops, u) && TaxesCovered(m, ops, u)
    ensures var r := RunOps(m, ops);
            && Costed(r) && u in r.users && 0 <= r.users[u].cash < TWO_63
            && r.users[u].cash == m.users[u].cash + Ledger(r, u) - Ledger(m, u)
    decreases |ops|
  {
    hide Costed, Do, TaxUnderflows, Overdraws, Ledger, ReserveDrift;
    if ops != [] {
      StepEntered(m, ops[0], u);
      StepCosted(m, ops[0]);
      NeverInDebt(Do(m, ops[0]), ops[1..], u);
    }
  }

  /** No step of the run takes more out of u's reserve than is in it. */
  ghost predicate NeverOverdrawn(m: Models, ops: seq<Op>, u: nat)
    requires u in m.users
    decreases |ops|
  {
    ops != [] ==> !Overdraws(m, ops[0], u) && NeverOverdrawn(Do(m, ops[0]), ops[1..], u)
  }

  /** Over any run the ledger explains every change of reserved cash, if and only if the reserve is never
      overdrawn. */
  lemma {:induction false} ReserveExplainedIff(m: Models, ops: seq<Op>, u: nat)
    requires Costed(m) && Word(m, u) && AllPaired(ops)
    ensures u in RunOps(m, ops).users
    ensures ReserveDrift(m, u) <= ReserveDrift(RunOps(m, ops), u)
    ensures ReserveDrift(RunOps(m, ops), u) == ReserveDrift(m, u) <==> NeverOverdrawn(m, ops, u)
    decreases |ops|
  {
    hide Costed, Do, TaxUnderflows, Overdraws, Ledger, ReserveDrift;
    if ops != [] {
      StepEntered(m, ops[0], u);
      StepCosted(m, ops[0]);
      ReserveExplainedIff(Do(m, ops[0]), ops[1..], u);
    }
  }

  /** And while every order's objects stay together and no reservation is given up, it never is. */
  lemma TogetherNotOverdrawn(m: Models, op: Op, u: nat)
    requires Booked(m) && AllAttached(m) && Legal(m, op) && u in m.users
    ensures !Overdraws(m, op, u)
  {
    hide Fill, Accounts.Cancel, Refund, Reserved, InWords, AllAttached, Portion, Foreign;
    if op.FillOp? && u == op.bid.userId && op.bid.id in m.deposits {
      FillWithin(m, op.ask, op.bid, op.price, op.qty, op.budget);
    } else if op.CancelOp? && u == op.userId && op.o.id.side == BidSide {
      CancelGuards(m, u, op.o, op.budget);
      hide CancelSucceeds, OrdersOk;
      if Accounts.Cancel(m, u, op.o, op.budget).error.None? {
        CancelWithin(m, u, op.o, op.budget);
      }
    }
  }

  lemma FillWithin(m: Models, a: Order, b: Order, price: nat, qty: nat, budget: nat)
    requires Booked(m) && AllAttached(m) && Legal(m, FillOp(a, b, price, qty, budget)) && b.userId in m.users && b.id in m.deposits
    ensures !Overdraws(m, FillOp(a, b, price, qty, budget), b.userId)
  {
    hide Fill, Refund, Reserved, InWords, AllAttached, Portion, Foreign, Trades, ClosesShort;
    FillGuards(m, a, b, price, qty, budget);
    BidKnown(m, b);
    hide OrdersOk;
    KnownTogether(m, b);
    if Fill(m, a, b, price, qty, budget).traded {
      TradeWithin(m, a, b, price, qty, budget);
    } else if Fill(m, a, b, price, qty, budget).bid == Done {
      CloseWithin(m, a, b, price, qty, budget);
    }
  }

  lemma TradeWithin(m: Models, a: Order, b: Order, price: nat, qty: nat, budget: nat)
    requires Booked(m) && Known(m, b) && !Apart(m, b) && b.id.side == BidSide && qty <= Unfulfilled(b, Look(m.progress, b))
    requires Fill(m, a, b, price, qty, budget).traded
    ensures b.id in m.deposits && b.userId in m.users
            && Portion(m.deposits[b.id], qty, b.quantity) <= m.users[b.userId].reservedCash
  {
    hide Fill, CashLeft, TradeRows, Portion, AskTax, BidTax, Wrap64, Reserved, InWords, Unit;
    TradeShape(m, a, b, price, qty, budget);
    var y := BidFound(m, b);
    hide OrdersOk, Known;
    PartIs(m, b, y, qty);
    ReserveCovers(m, y);
  }

  lemma RefundWithin(m: Models, b: Order, y: Order, p: Progress)
    requires Booked(m) && SameBid(m, b, y) && !Look(m.stored, y).isClosed && p.fulfilled == Look(m.stored, y).fulfilled
    ensures b.id in m.deposits && b.userId in m.users && Refund(b, p, m.deposits[b.id]) <= m.users[b.userId].reservedCash
  {
    RefundIs(m, b, y, p);
    ReserveCovers(m, y);
    hide Refund;
  }

  lemma CloseWithin(m: Models, a: Order, b: Order, price: nat, qty: nat, budget: nat)
    requires Booked(m) && Known(m, b) && !Apart(m, b) && a.id.side == AskSide && b.id.side == BidSide
    requires var r := Fill(m, a, b, price, qty, budget); !r.traded && r.bid == Done
    ensures b.id in m.deposits && b.userId in m.users
            && Refund(b, Look(m.progress, b), m.deposits[b.id]) <= m.users[b.userId].reservedCash
  {
    ClosedShape(m, a, b, price, qty, budget);
    var y := BidFound(m, b);
    hide Fill, Booked, Refund, CashLeft;
    RefundWithin(m, b, y, Look(m.progress, b));
  }

  lemma CancelWithin(m: Models, u: nat, o: Order, budget: nat)
    requires Booked(m) && AllAttached(m) && o.id.side == BidSide && Accounts.Cancel(m, u, o, budget).error.None?
    requires Legal(m, CancelOp(u, o, budget))
    ensures u == o.userId && o.id in m.deposits && u in m.users
            && Refund(o, Seen(m, o), m.deposits[o.id]) <= m.users[u].reservedCash
  {
    assert u == o.userId && !Seen(m, o).isClosed && o.id in m.deposits;
    assert o in m.orders && OrderOk(m, o) && Attached(m, o);
    hide Accounts.Cancel, Booked, Refund;
    RefundWithin(m, o, o, Seen(m, o));
  }

  lemma {:induction false} ReserveExplained(m: Models, ops: seq<Op>, u: nat)
    requires Booked(m) && AllAttached(m) && LegalOps(m, ops) && NeverDetaches(m, ops) && NeverForfeits(m, ops) && u in m.users
    ensures NeverOverdrawn(m, ops, u)
    decreases |ops|
  {
    hide OrdersOk, Reserved, InWords, AllAttached, Misbooks, Detaches, Legal, Do, Rewrites, Overdraws, Forfeits, Outdates;
    if ops != [] {
      var any: Order :| true;
      TogetherNotOverdrawn(m, ops[0], u);
      TogetherIsSafe(m, ops[0], any);
      StepBookedIff(m, ops[0]);
      StepAttachedIff(m, ops[0]);
      ReserveExplained(Do(m, ops[0]), ops[1..], u);
    }
  }
}
