/** What each operation on the accounts does, in numbers: who has how much cash, how much of it in reserve, and
    how many stocks, before and after. */
module Effects {
  import opened Words
  import opened Orders
  import opened Wrappers
  import opened State
  import opened Accounts
  import opened Sums
  import opened Reservations
  import DoubleEntry
  import StockReserves
  import Taxes

  // -------------------------------------------------------------------------
  // Stocks in the ledger
  // -------------------------------------------------------------------------

  /** One more row adds its stocks to its user's, in its stock, and to nobody else's. */
  lemma RowCounts(m: Models, t: Transaction, u: nat, s: nat)
    ensures StockCount(m.(rows := []), u, s) == 0
    ensures StockCount(m.(rows := m.rows + [t]), u, s)
            == StockCount(m, u, s) + if t.userId == u && t.stockId == s then t.stockQuantity else 0
  {
    SumAppend(m.rows, t, StocksOf(u, s));
  }

  /** One more active lend adds to what its user has borrowed. */
  lemma LendCounts(m: Models, l: Lend, u: nat, s: nat)
    ensures ActiveLends(m.(lends := []), u, s) == 0
    ensures ActiveLends(m.(lends := m.lends + [l]), u, s)
            == ActiveLends(m, u, s) + if l.userId == u && l.stockId == s && !l.isSquaredOff then l.stockQuantity else 0
  {
    SumAppend(m.lends, l, LentTo(u, s));
  }

  /** Stocks reserved for asks. */
  function SetAsideFor(m: Models, u: nat, s: nat): int {
    Sum(m.rows, StockReserves.SetAside(u, s))
  }

  // -------------------------------------------------------------------------
  // Which orders are accepted
  // -------------------------------------------------------------------------

  /** The price an order is valued at: its own, or the current one for a market order. */
  ghost predicate ValuedAt(m: Models, o: Order, price: nat) {
    price == if o.oType == Market then CurrentPrice(m, o.stockId) else o.price
  }

  /** A limit price is above 10 and within a fifth of the current price. */
  ghost predicate PriceAllowed(m: Models, o: Order) {
    o.oType == Limit ==>
      && o.price > 10
      && 5 * o.price <= 6 * CurrentPrice(m, o.stockId) && 5 * (o.price + 1) > 4 * CurrentPrice(m, o.stockId)
  }

  lemma PriceAllowedIff(m: Models, o: Order)
    ensures PriceError(m, o).None? <==> PriceAllowed(m, o)
    ensures o.oType == Limit && o.price <= 10 ==> PriceError(m, o) == Some(MinimumPriceThreshold)
    ensures PriceError(m, o).Some? && o.price > 10 ==> PriceError(m, o) == Some(OrderPriceOutOfWindow)
  {
  }

  /** A bid is accepted if and only if its price is allowed, its user known, it is for 1 to 50 stocks, and the
      user's cash covers its worth and the fee. */
  lemma BidAcceptedIff(m: Models, o: Order, fee: nat, budget: nat, price: nat)
    requires ValuedAt(m, o, price)
    ensures PlaceBid(m, o, fee, budget).error.None?
            <==> PriceAllowed(m, o) && o.userId in m.users && 1 <= o.quantity <= 50
                 && o.quantity * price + fee <= Signed64(m.users[o.userId].cash)
    ensures PlaceBid(m, o, fee, budget).error.Some? ==> PlaceBid(m, o, fee, budget).m == m
  {
    PriceAllowedIff(m, o);
    hide PriceError, BidPlaced, PriceAllowed;
  }

  /** A recorded bid of a user costs its fee and moves its worth, quantity times price, from cash into the
      reserve; nobody else's account changes. */
  lemma BidReserves(m: Models, o: Order, fee: nat, budget: nat, price: nat)
    requires ValuedAt(m, o, price) && PlaceBid(m, o, fee, budget).recorded
    ensures o.userId in m.users
    ensures var m', u, worth := PlaceBid(m, o, fee, budget).m, m.users[o.userId], o.quantity * price;
            && m'.users == m.users[o.userId := u.(cash := Wrap64(u.cash - fee - worth), reservedCash := u.reservedCash + worth)]
            && m'.orders == m.orders + [o] && m'.deposits == m.deposits[o.id := worth]
            && m'.stored == m.stored[o.id := Progress(0, false)] && m'.progress == m.progress[o.id := Progress(0, false)]
            && m'.stocks == m.stocks && m'.lends == m.lends && m'.lendBank == m.lendBank
    ensures forall v, s :: StockCount(PlaceBid(m, o, fee, budget).m, v, s) == StockCount(m, v, s)
  {
    hide BidError, Wrap64, Sum;
    var worth: int := o.quantity * price;
    var r0, r1 := Row(o.userId, o.stockId, OrderFee, 0, 0, 0, 0, 0 - fee), Row(o.userId, o.stockId, PlaceOrder, 0, 0, 0, worth, 0 - worth);
    forall v, s ensures StockCount(PlaceBid(m, o, fee, budget).m, v, s) == StockCount(m, v, s) {
      SumConcat(m.rows, [r0, r1], StocksOf(v, s));
      DoubleEntry.TwoRows(r0, r1, StocksOf(v, s));
    }
    BidUserKnown(m, o, fee);
  }

  lemma BidUserKnown(m: Models, o: Order, fee: nat)
    requires BidError(m, o, fee).None?
    ensures o.userId in m.users
  {
    hide PriceError;
  }

  /** How many stocks a user who owns so many must borrow to offer so many. */
  ghost predicate Borrows(owned: int, offered: nat, borrowed: nat) {
    && (owned < 0 ==> borrowed == offered)
    && (0 <= owned <= offered ==> borrowed == offered - owned)
    && (owned > offered ==> borrowed == 0)
  }

  /** An ask is accepted if and only if its price is allowed, its user known, it is for 1 to 50 stocks, the cash
      covers the fee and, where stocks have to be borrowed, the bank has them and the user stays within the limit
      of 20: never for want of borrowable stocks if the user owns all that are offered. */
  lemma AskAcceptedIff(m: Models, o: Order, fee: nat, budget: nat, borrowed: nat)
    requires Borrows(StockCount(m, o.userId, o.stockId), o.quantity, borrowed)
    ensures PlaceAsk(m, o, fee, budget).error.None?
            <==> PriceAllowed(m, o) && o.userId in m.users && 1 <= o.quantity <= 50 && fee <= Signed64(m.users[o.userId].cash)
                 && (borrowed > 0 ==> borrowed <= Available(m, o.stockId) && ActiveLends(m, o.userId, o.stockId) + borrowed <= 20)
    ensures PlaceAsk(m, o, fee, budget).error.Some? ==> PlaceAsk(m, o, fee, budget).m == m
  {
    PriceAllowedIff(m, o);
    hide PriceError, AskPlaced, PriceAllowed, Sum;
  }

  /** A recorded ask costs its fee. It borrows exactly the stocks that its user lacks, which leave the bank; all
      it offers is set aside, and the user keeps what is beyond that. */
  lemma AskBorrows(m: Models, o: Order, fee: nat, budget: nat, borrowed: nat)
    requires Borrows(StockCount(m, o.userId, o.stockId), o.quantity, borrowed) && PlaceAsk(m, o, fee, budget).recorded
    requires Available(m, o.stockId) < TWO_32
    ensures o.userId in m.users
    ensures var m', u, owned := PlaceAsk(m, o, fee, budget).m, m.users[o.userId], StockCount(m, o.userId, o.stockId);
            && m'.users == m.users[o.userId := u.(cash := Wrap64(u.cash - fee))]
            && m'.orders == m.orders + [o]
            && Available(m', o.stockId) == Available(m, o.stockId) - borrowed
            && ActiveLends(m', o.userId, o.stockId) == ActiveLends(m, o.userId, o.stockId) + borrowed
            && StockCount(m', o.userId, o.stockId) == (if owned < 0 then owned else if owned <= o.quantity then 0 else owned - o.quantity)
            && SetAsideFor(m', o.userId, o.stockId) == SetAsideFor(m, o.userId, o.stockId) + o.quantity
            && (borrowed > 0 ==> |m'.rows| == |m.rows| + 3 && m'.rows[|m.rows| + 1].kind == ShortSell
                                 && m'.rows[|m.rows| + 1].price == CurrentPrice(m, o.stockId))
  {
    hide AskError, Wrap64, Sum, Row, AskPlaced;
    ShortIs(m, o, borrowed);
    AskRecordedIs(m, o, fee, budget);
    var short := ShortSellQty(m, o);
    AskPlacedIs(m, o, fee, short);
    PlacedStocks(m, o, fee, short, borrowed);
  }

  lemma ShortIs(m: Models, o: Order, borrowed: nat)
    requires Borrows(StockCount(m, o.userId, o.stockId), o.quantity, borrowed)
    ensures borrowed == if ShortSellQty(m, o) > 0 then ShortSellQty(m, o) else 0
  {
    hide StockCount;
  }

  lemma AskRecordedIs(m: Models, o: Order, fee: nat, budget: nat)
    requires PlaceAsk(m, o, fee, budget).recorded
    ensures o.userId in m.users && PlaceAsk(m, o, fee, budget).m == AskPlaced(m, o, fee, ShortSellQty(m, o))
    ensures ShortSellQty(m, o) > 0 ==> ShortSellQty(m, o) <= Available(m, o.stockId)
  {
    hide PriceError, AskPlaced, ShortSellQty, ActiveLends, Available;
  }

  lemma PlacedStocks(m: Models, o: Order, fee: nat, short: int, borrowed: nat)
    requires o.userId in m.users && borrowed == (if short > 0 then short else 0) && (short > 0 ==> short <= Available(m, o.stockId) < TWO_32)
    ensures var m', u, s := AskPlaced(m, o, fee, short), o.userId, o.stockId;
            && Available(m', s) == Available(m, s) - borrowed && ActiveLends(m', u, s) == ActiveLends(m, u, s) + borrowed
            && StockCount(m', u, s) == StockCount(m, u, s) + borrowed - o.quantity
            && SetAsideFor(m', u, s) == SetAsideFor(m, u, s) + o.quantity
            && (borrowed > 0 ==> |m'.rows| == |m.rows| + 3 && m'.rows[|m.rows| + 1].kind == ShortSell
                                 && m'.rows[|m.rows| + 1].price == CurrentPrice(m, o.stockId))
  {
    var u, s := o.userId, o.stockId;
    var r0 := Row(u, s, OrderFee, 0, 0, 0, 0, 0 - fee);
    var r1 := Row(u, s, PlaceOrder, o.quantity, 0 - o.quantity, 0, 0, 0);
    var lent := if short > 0 then [Row(u, s, ShortSell, 0, short, CurrentPrice(m, s), 0, 0)] else [];
    assert AskPlaced(m, o, fee, short).rows == m.rows + ([r0] + lent + [r1]);
    SumConcat(m.rows, [r0] + lent + [r1], StocksOf(u, s));
    SumConcat(m.rows, [r0] + lent + [r1], StockReserves.SetAside(u, s));
    DoubleEntry.LentRowsSum(r0, lent, r1, StocksOf(u, s));
    DoubleEntry.LentRowsSum(r0, lent, r1, StockReserves.SetAside(u, s));
    if short > 0 {
      LendCounts(m, Lend(s, u, short, false), u, s);
      BorrowedFromBank(m, s, short);
    }
    hide Sum, Wrap64;
  }

  lemma BorrowedFromBank(m: Models, s: nat, q: nat)
    requires q <= Available(m, s) < TWO_32
    ensures BankUpdated(Available(m, s), Negate32(q)) == Available(m, s) - q
  {
  }

  /** Why a bid is refused: the first of these that applies. */
  lemma BidRefusedFor(m: Models, o: Order, fee: nat, budget: nat, price: nat)
    requires ValuedAt(m, o, price) && PlaceBid(m, o, fee, budget).error.Some?
    ensures var e := PlaceBid(m, o, fee, budget).error.value;
            && (o.oType == Limit && o.price <= 10 ==> e == MinimumPriceThreshold)
            && (o.oType == Limit && o.price > 10 && !PriceAllowed(m, o) ==> e == OrderPriceOutOfWindow)
            && (PriceAllowed(m, o) && o.userId !in m.users ==> e == UnknownUser)
            && (PriceAllowed(m, o) && o.userId in m.users && !(1 <= o.quantity <= 50) ==> e == OrderStockLimitExceeded)
            && (PriceAllowed(m, o) && o.userId in m.users && 1 <= o.quantity <= 50 ==> e == NotEnoughCash)
  {
    PriceAllowedIff(m, o);
    hide PriceError, BidPlaced, PriceAllowed;
  }

  lemma AskRefusedFor(m: Models, o: Order, fee: nat, budget: nat)
    requires PlaceAsk(m, o, fee, budget).error.Some?
    ensures var e := PlaceAsk(m, o, fee, budget).error.value;
            && (o.oType == Limit && o.price <= 10 ==> e == MinimumPriceThreshold)
            && (o.oType == Limit && o.price > 10 && !PriceAllowed(m, o) ==> e == OrderPriceOutOfWindow)
            && (PriceAllowed(m, o) && o.userId !in m.users ==> e == UnknownUser)
            && (PriceAllowed(m, o) && o.userId in m.users && !(1 <= o.quantity <= 50) ==> e == OrderStockLimitExceeded)
            && (PriceAllowed(m, o) && o.userId in m.users && 1 <= o.quantity <= 50
                ==> e == NotEnoughCash || (e == NotEnoughStocks && StockCount(m, o.userId, o.stockId) < o.quantity))
  {
    PriceAllowedIff(m, o);
    hide PriceError, AskPlaced, PriceAllowed, StockCount, ActiveLends, Available;
  }

  // -------------------------------------------------------------------------
  // Filling
  // -------------------------------------------------------------------------

  /** part is the share of a reservation that belongs to qty of whole stocks, rounded down. */
  ghost predicate ShareOf(reserved: int, qty: nat, whole: nat, part: int) {
    whole > 0 ==> part * whole <= reserved * qty < (part + 1) * whole
  }

  lemma PortionIs(reserved: int, qty: nat, whole: nat)
    ensures ShareOf(reserved, qty, whole, Portion(reserved, qty, whole))
  {
    if whole > 0 {
      var n, part := reserved * qty, reserved * qty / whole;
      assert n == part * whole + n % whole;
      assert (part + 1) * whole == part * whole + whole;
    }
  }

  /** A trade of qty at price: the seller gets quantity times price less tax, the buyer pays it out of cash and
      the order's share of the reserve, and owes tax; nobody else's account changes. */
  lemma FillPays(m: Models, a: Order, b: Order, price: nat, qty: nat, budget: nat)
    requires Trades(m, a, b, price, qty, budget)
    ensures var m', seller, buyer := Fill(m, a, b, price, qty, budget).m, m.users[a.userId], m.users[b.userId];
            var sellTax := Taxes.SellTax(SummaryOf(m, a.userId, a.stockId), qty, price, seller.total);
            var buyTax := Taxes.BuyTax(SummaryOf(m, b.userId, b.stockId), qty, price, buyer.total);
            exists part ::
              && ShareOf(m.deposits[b.id], qty, b.quantity, part)
              && a.userId in m'.users && b.userId in m'.users
              && m'.users[a.userId] == seller.(cash := Wrap64(seller.cash + qty * price - sellTax))
              && m'.users[b.userId].cash == Wrap64(Signed64(buyer.cash) + part - qty * price - buyTax)
              && m'.users[b.userId].reservedCash == (if part <= buyer.reservedCash then buyer.reservedCash - part else 0)
              && m'.users[b.userId].total == buyer.total
    ensures forall u :: u in m.users && u != a.userId && u != b.userId
              ==> u in Fill(m, a, b, price, qty, budget).m.users && Fill(m, a, b, price, qty, budget).m.users[u] == m.users[u]
  {
    hide Fill, TradeRows, Portion, ShareOf, Taxes.SellTax, Taxes.BuyTax, FillWrites, Wrap64, ClosesShort;
    FillGuards(m, a, b, price, qty, budget);
    TradeShape(m, a, b, price, qty, budget);
    var reserved := m.deposits[b.id];
    PortionIs(reserved, qty, b.quantity);
    assert price * qty == qty * price;
    assert ShareOf(reserved, qty, b.quantity, Portion(reserved, qty, b.quantity));
  }

  /** The buyer owns qty more stocks; the seller has that many fewer set aside, and no fewer to sell. */
  lemma FillMovesStocks(m: Models, a: Order, b: Order, price: nat, qty: nat, budget: nat, u: nat, s: nat)
    requires Trades(m, a, b, price, qty, budget)
    ensures var m' := Fill(m, a, b, price, qty, budget).m;
            && StockCount(m', u, s) == StockCount(m, u, s) + (if u == b.userId && s == b.stockId then qty else 0)
            && SetAsideFor(m', u, s) == SetAsideFor(m, u, s) - (if u == a.userId && s == a.stockId then qty else 0)
  {
    FillGuards(m, a, b, price, qty, budget);
    TradeShape(m, a, b, price, qty, budget);
    var x, reserved := PartiesOf(m, a, b), m.deposits[b.id];
    var rows := TradeRows(a, b, x, reserved, price, qty);
    hide Fill, TradeRows, Portion, AskTax, BidTax, FillWrites, CashLeft;
    SumConcat(m.rows, rows, StocksOf(u, s));
    SumConcat(m.rows, rows, StockReserves.SetAside(u, s));
    DoubleEntry.TradeRowsSum(a, b, x, reserved, price, qty, StocksOf(u, s));
    StockReserves.TradeRowsSetAside(a, b, x, reserved, price, qty, u, s);
    TaxMovesNothing(a.userId, a.stockId, AskTax(x, price, qty), u, s);
    TaxMovesNothing(b.userId, b.stockId, BidTax(x, price, qty), u, s);
    hide Sum, TaxRows;
  }

  lemma TaxMovesNothing(owner: nat, stock: nat, tax: nat, u: nat, s: nat)
    ensures Sum(TaxRows(owner, stock, tax), StocksOf(u, s)) == 0
  {
  }

  /** The ledger notes the price of the trade for both, and both positions change by it. */
  lemma FillIsNoted(m: Models, a: Order, b: Order, price: nat, qty: nat, budget: nat)
    requires Trades(m, a, b, price, qty, budget)
    ensures var m' := Fill(m, a, b, price, qty, budget).m;
            && |m.rows| + 2 <= |m'.rows| && m'.rows[..|m.rows|] == m.rows
            && m'.rows[|m.rows|].price == price == m'.rows[|m.rows| + 1].price
            && m'.rows[|m.rows|].kind == OrderFill == m'.rows[|m.rows| + 1].kind
            && m'.rows[|m.rows|].userId == a.userId && m'.rows[|m.rows| + 1].userId == b.userId
            && SummaryOf(m', a.userId, a.stockId) == Some(Taxes.Sold(SummaryOf(m, a.userId, a.stockId), qty, price))
            && SummaryOf(m', b.userId, b.stockId) == Some(Taxes.Bought(SummaryOf(m, b.userId, b.stockId), qty, price))
  {
    FillGuards(m, a, b, price, qty, budget);
    TradeShape(m, a, b, price, qty, budget);
    FillSummaries(m, a, b, price, qty, budget);
    hide Fill, Portion, AskTax, BidTax, FillWrites, CashLeft, TaxRows, Taxes.Sold, Taxes.Bought;
  }

  lemma FillSummaries(m: Models, a: Order, b: Order, price: nat, qty: nat, budget: nat)
    requires Fill(m, a, b, price, qty, budget).traded && qty > 0 && a.userId != b.userId
    ensures Fill(m, a, b, price, qty, budget).m.summaries
            == m.summaries[(a.userId, a.stockId) := Taxes.Sold(SummaryOf(m, a.userId, a.stockId), qty, price)]
                          [(b.userId, b.stockId) := Taxes.Bought(SummaryOf(m, b.userId, b.stockId), qty, price)]
  {
    hide AskTax, BidTax, TradeRows, StockAfterTrade, Taxes.Sold, Taxes.Bought, Portion, CashLeft, FillWrites, Wrap64, Max0, FilledBy;
  }

  // -------------------------------------------------------------------------
  // Cancelling
  // -------------------------------------------------------------------------

  /** p is the object a cancellation finds: the one in the queue, another one, or, if the map holds none, the
      order's row. */
  ghost predicate Finds(m: Models, o: Order, p: Progress) {
    if o.id !in m.entries || m.entries[o.id] == Missing then o.id in m.stored && p == m.stored[o.id]
    else if m.entries[o.id] == Shared then o.id in m.progress && p == m.progress[o.id]
    else p == m.entries[o.id].copy
  }

  /** A recorded order can be cancelled by its own user, and nobody else, while that object is open. */
  lemma CancelAcceptedIff(m: Models, userId: nat, o: Order, p: Progress, budget: nat)
    requires o in m.orders && Finds(m, o, p)
    ensures Seen(m, o) == p
    ensures Accounts.Cancel(m, userId, o, budget).error.None?
            <==> userId in m.users && o.userId == userId && !p.isClosed
                 && budget >= (if o.id.side == AskSide then 3 else 4) && (o.id.side == BidSide ==> o.id in m.deposits)
    ensures userId in m.users && o.userId == userId && p.isClosed
            ==> Accounts.Cancel(m, userId, o, budget).error == Some(OrderAlreadyClosed)
    ensures userId in m.users && o.userId != userId
            ==> Accounts.Cancel(m, userId, o, budget).error == Some(InvalidOrderId)
  {
    CancelGuards(m, userId, o, budget);
    hide LookedUp, MarkedClosed, TakenOut, Released, CancelOpen;
  }

  /** Cancelling an ask makes what it still offered its user's to sell again; nothing else changes. */
  lemma AskCancelReturns(m: Models, o: Order, budget: nat, u: nat, s: nat)
    requires CancelSucceeds(m, o.userId, o, budget) && o.id.side == AskSide && Seen(m, o).fulfilled <= o.quantity
    ensures var m', left := Accounts.Cancel(m, o.userId, o, budget).m, o.quantity - Seen(m, o).fulfilled;
            && m'.users == m.users
            && StockCount(m', u, s) == StockCount(m, u, s) + (if u == o.userId && s == o.stockId then left else 0)
            && SetAsideFor(m', u, s) == SetAsideFor(m, u, s) - (if u == o.userId && s == o.stockId then left else 0)
            && Look(m'.stored, o) == Seen(m, o).(isClosed := true)
  {
    CancelGuards(m, o.userId, o, budget);
    DoubleEntry.CancelRows(m, o.userId, o, budget);
    CancelOpenShape(m, o, budget);
    assert Accounts.Cancel(m, o.userId, o, budget) == CancelOpen(m, o, budget);
    hide Accounts.Cancel, CancelOpen, Seen;
    var q: int := Unfulfilled(o, Seen(m, o));
    var t := Row(o.userId, o.stockId, CancelOrder, 0 - q, q, 0, 0, 0);
    SumAppend(m.rows, t, StocksOf(u, s));
    SumAppend(m.rows, t, StockReserves.SetAside(u, s));
  }

  /** Cancelling a bid returns the share of its reservation that belongs to what is unfilled. */
  lemma BidCancelReturns(m: Models, o: Order, budget: nat)
    requires CancelSucceeds(m, o.userId, o, budget) && o.id.side == BidSide && Seen(m, o).fulfilled <= o.quantity
    ensures var m', u := Accounts.Cancel(m, o.userId, o, budget).m, m.users[o.userId];
            exists refund ::
              && ShareOf(m.deposits[o.id], o.quantity - Seen(m, o).fulfilled, o.quantity, refund)
              && m'.users == m.users[o.userId := u.(cash := Wrap64(u.cash + refund), reservedCash := Sub64(u.reservedCash, refund))]
    ensures Look(Accounts.Cancel(m, o.userId, o, budget).m.stored, o) == Seen(m, o).(isClosed := true)
  {
    CancelGuards(m, o.userId, o, budget);
    DoubleEntry.CancelRows(m, o.userId, o, budget);
    CancelOpenShape(m, o, budget);
    assert Accounts.Cancel(m, o.userId, o, budget) == CancelOpen(m, o, budget);
    hide Accounts.Cancel, CancelOpen, Seen, Portion, Wrap64, Sub64;
    PortionIs(m.deposits[o.id], o.quantity - Seen(m, o).fulfilled, o.quantity);
    hide ShareOf;
    assert Unfulfilled(o, Seen(m, o)) == o.quantity - Seen(m, o).fulfilled;
    assert ShareOf(m.deposits[o.id], o.quantity - Seen(m, o).fulfilled, o.quantity, Refund(o, Seen(m, o), m.deposits[o.id]));
  }

  // -------------------------------------------------------------------------
  // Buying from the exchange and mortgaging
  // -------------------------------------------------------------------------

  /** A purchase is accepted if and only if it is of at most 30 stocks, the exchange has some, the user's cash
      covers as many of them as it has, and it can be written. */
  lemma PurchaseAcceptedIff(m: Models, u: nat, s: nat, qty: nat, budget: nat)
    requires s in m.stocks && u in m.users
    ensures var price := m.stocks[s].currentPrice;
            var got := if qty <= m.stocks[s].stocksInExchange then qty else m.stocks[s].stocksInExchange;
            BuyFromExchange(m, u, s, qty, budget).error.None?
            <==> qty <= 30 && got > 0 && got * price <= m.users[u].cash
                 && budget >= if Taxes.BuyTax(SummaryOf(m, u, s), got, price, m.users[u].total) > 0 then 6 else 5
    ensures BuyFromExchange(m, u, s, qty, budget).error.Some? ==> BuyFromExchange(m, u, s, qty, budget).m == m
  {
    hide Taxes.BuyTax, ExchangeBought;
    var q, price := BoughtQty(m, s, qty), m.stocks[s].currentPrice;
    assert price * q == q * price;
  }

  /** A purchase of up to 30 stocks gets as many as the exchange has, at the current price. */
  lemma PurchaseIs(m: Models, u: nat, s: nat, qty: nat, budget: nat)
    requires BuyFromExchange(m, u, s, qty, budget).error.None?
    ensures qty <= 30 && u in m.users && s in m.stocks
    ensures var m', price := BuyFromExchange(m, u, s, qty, budget).m, m.stocks[s].currentPrice;
            var got := if qty <= m.stocks[s].stocksInExchange then qty else m.stocks[s].stocksInExchange;
            var tax := Taxes.BuyTax(SummaryOf(m, u, s), got, price, m.users[u].total);
            && got > 0 && got * price <= m.users[u].cash
            && m'.users == m.users[u := m.users[u].(cash := Wrap64(m.users[u].cash - got * price - tax))]
            && StockCount(m', u, s) == StockCount(m, u, s) + got
            && SummaryOf(m', u, s) == Some(Taxes.Bought(SummaryOf(m, u, s), got, price))
            && s in m'.stocks && m'.stocks[s].stocksInExchange == m.stocks[s].stocksInExchange - got
            && m'.stocks[s].stocksInMarket == m.stocks[s].stocksInMarket + got && m'.stocks[s].currentPrice == price
  {
    DoubleEntry.BuyWrote(m, u, s, qty, budget);
    PurchaseStock(m, u, s, qty, budget);
    var got, price := BoughtQty(m, s, qty), m.stocks[s].currentPrice;
    var cost: int := price * got;
    var tax, t := Taxes.BuyTax(SummaryOf(m, u, s), got, price, m.users[u].total), Row(u, s, FromExchange, 0, got, price, 0, 0 - cost);
    SumConcat(m.rows, [t] + TaxRows(u, s, tax), StocksOf(u, s));
    SumConcat([t], TaxRows(u, s, tax), StocksOf(u, s));
    DoubleEntry.OneRow(t, StocksOf(u, s));
    TaxMovesNothing(u, s, tax, u, s);
    hide BuyFromExchange, Taxes.BuyTax, Taxes.Bought, TaxRows, Sum, Wrap64;
    assert price * got == got * price;
  }

  lemma PurchaseStock(m: Models, u: nat, s: nat, qty: nat, budget: nat)
    requires BuyFromExchange(m, u, s, qty, budget).error.None?
    ensures qty <= 30 && s in m.stocks && BoughtQty(m, s, qty) <= m.stocks[s].stocksInExchange
    ensures var q, r := BoughtQty(m, s, qty), m.stocks[s];
            BuyFromExchange(m, u, s, qty, budget).m.stocks
            == m.stocks[s := r.(stocksInExchange := r.stocksInExchange - q, stocksInMarket := r.stocksInMarket + q)]
  {
    hide Taxes.BuyTax, Taxes.Bought, TaxRows, Wrap64, BuyWrites, Row;
  }

  /** Stocks are mortgaged, as a negative quantity, if and only if the user owns that many. */
  lemma MortgageAcceptedIff(m: Models, u: nat, s: nat, qty: nat, retrievePrice: nat, budget: nat)
    requires qty > 0
    ensures var r := PerformMortgage(m, u, s, 0 - qty, retrievePrice, budget);
            && (r.error.None? <==> u in m.users && qty <= StockCount(m, u, s) && budget >= 4)
            && (r.error.Some? ==> r.m == m)
            && (r.error.None? ==> r == Deposit(m, u, s, qty))
  {
    hide StockCount, DepositAmount, RetrieveAmount, Wrap64;
  }

  /** Stocks are retrieved if and only if they were mortgaged at that price, the user's cash covers their full
      worth, and there are that many in the bank. */
  lemma RetrievalAcceptedIff(m: Models, u: nat, s: nat, qty: nat, price: nat, budget: nat)
    ensures var r, k := PerformMortgage(m, u, s, qty, price, budget), MortgageKey(u, s, price);
            && (r.error.None? <==> u in m.users && k in m.mortgages && qty * price <= Signed64(m.users[u].cash)
                                   && qty <= m.mortgages[k] && budget >= 4)
            && (r.error.Some? ==> r.m == m)
            && (r.error.None? ==> r == Retrieve(m, u, s, qty, price))
            && (u in m.users && k !in m.mortgages ==> r.error == Some(InvalidRetrievePrice))
  {
    hide StockCount, DepositAmount, RetrieveAmount, Wrap64;
  }

  /** Mortgaging pays 80% of the stocks' current worth, rounded down, for stocks the user owns. */
  lemma MortgagePays(m: Models, u: nat, s: nat, qty: nat, retrievePrice: nat, budget: nat)
    requires qty > 0 && PerformMortgage(m, u, s, 0 - qty, retrievePrice, budget).error.None?
    ensures u in m.users && qty <= StockCount(m, u, s)
    ensures var m', now := PerformMortgage(m, u, s, 0 - qty, retrievePrice, budget).m, CurrentPrice(m, s);
            var k, worth := MortgageKey(u, s, now), qty * now;
            && StockCount(m', u, s) == StockCount(m, u, s) - qty
            && InBank(m', k) == InBank(m, k) + qty
            && |m'.rows| == |m.rows| + 1 && m'.rows[|m.rows|].price == now && m'.rows[|m.rows|].kind == Mortgage
            && exists paid: nat :: && 100 * paid <= 80 * worth < 100 * (paid + 1)
                                   && m'.users == m.users[u := m.users[u].(cash := Wrap64(m.users[u].cash + paid))]
  {
    hide PerformMortgage;
    MortgageAcceptedIff(m, u, s, qty, retrievePrice, budget);
    var p := CurrentPrice(m, s);
    var worth, paid := qty * p, DepositAmount(p, qty);
    assert p * qty * 80 == 80 * worth by { assert p * qty == worth; }
    SumAppend(m.rows, Row(u, s, Mortgage, 0, 0 - qty, p, 0, paid), StocksOf(u, s));
    assert 100 * paid <= 80 * worth < 100 * (paid + 1);
    hide StockCount, DepositAmount, Wrap64, Sum;
    assert m.users[u := m.users[u].(cash := Wrap64(m.users[u].cash + paid))] == Deposit(m, u, s, qty).m.users;
  }

  /** Retrieving costs 90% of what the stocks were worth when mortgaged, rounded down, of stocks in the bank. */
  lemma RetrievalCosts(m: Models, u: nat, s: nat, qty: nat, price: nat, budget: nat)
    requires PerformMortgage(m, u, s, qty, price, budget).error.None?
    ensures MortgageKey(u, s, price) in m.mortgages && u in m.users
    ensures var m', worth, k := PerformMortgage(m, u, s, qty, price, budget).m, qty * price, MortgageKey(u, s, price);
            && StockCount(m', u, s) == StockCount(m, u, s) + qty
            && InBank(m', k) == InBank(m, k) - qty && (k in m'.mortgages <==> qty < m.mortgages[k])
            && |m'.rows| == |m.rows| + 1 && m'.rows[|m.rows|].price == price && m'.rows[|m.rows|].kind == Mortgage
            && exists cost: nat :: && 100 * cost <= 90 * worth < 100 * (cost + 1)
                                   && m'.users == m.users[u := m.users[u].(cash := Wrap64(m.users[u].cash - cost))]
  {
    hide PerformMortgage;
    RetrievalAcceptedIff(m, u, s, qty, price, budget);
    var worth, amount := qty * price, RetrieveAmount(price, qty);
    CostIs(price, qty);
    SumAppend(m.rows, Row(u, s, Mortgage, 0, qty, price, 0, amount), StocksOf(u, s));
    var cost: nat := 0 - amount;
    hide StockCount, RetrieveAmount, Wrap64, Sum;
    assert 100 * cost <= 90 * worth < 100 * (cost + 1);
    assert m.users[u := m.users[u].(cash := Wrap64(m.users[u].cash - cost))] == Retrieve(m, u, s, qty, price).m.users;
  }

  lemma CostIs(price: nat, qty: nat)
    ensures RetrieveAmount(price, qty) <= 0
    ensures var cost := 0 - RetrieveAmount(price, qty); 100 * cost <= 90 * (qty * price) < 100 * (cost + 1)
  {
    assert (0 - price) * qty * 90 == 0 - 90 * (qty * price);
  }

  /** Squaring off one lend takes the stocks back from the user into the bank. */
  lemma SquareOffReturns(m: Models, i: nat)
    requires i < |m.lends| && !m.lends[i].isSquaredOff
    requires 0 <= Available(m, m.lends[i].stockId) && Available(m, m.lends[i].stockId) + m.lends[i].stockQuantity < TWO_32
    ensures var m', l := SquareOff(m, i), m.lends[i];
            && StockCount(m', l.userId, l.stockId) == StockCount(m, l.userId, l.stockId) - l.stockQuantity
            && Available(m', l.stockId) == Available(m, l.stockId) + l.stockQuantity
            && m'.lends == m.lends[i := l.(isSquaredOff := true)] && m'.users == m.users
            && |m'.rows| == |m.rows| + 1 && m'.rows[|m.rows|].price == CurrentPrice(m, l.stockId) && m'.rows[|m.rows|].kind == ShortSell
  {
    var l := m.lends[i];
    SumAppend(m.rows, Row(l.userId, l.stockId, ShortSell, 0, 0 - l.stockQuantity, CurrentPrice(m, l.stockId), 0, 0),
              StocksOf(l.userId, l.stockId));
    hide Sum;
  }
}
