/** Placing, cancelling, buying, mortgaging and squaring off step by step: accounts, stocks, the orders in
    the queues and the maps that find orders live in memory, everything else in tables that a database
    transaction changes all at once or not at all. When a write fails each method undoes what the source
    undoes in memory: accounts and stocks, but not orders and maps. */
module Servers {
  import opened Words
  import opened Orders
  import opened Wrappers
  import opened State
  import opened Taxes
  import opened Accounts
  import Stocks

  class Server {
    var users: map<nat, User>
    var stocks: map<nat, Stocks.Stock>
    var progress: ProgressMap
    var entries: map<OrderId, Entry>
    var tables: Models
    var pending: Models
    var budget: nat

    ghost function View(): Models
      reads this
    {
      tables.(users := users, stocks := stocks, progress := progress, entries := entries)
    }

    constructor (m: Models, budget: nat)
      ensures View() == m && this.budget == budget
    {
      users, stocks, progress, entries := m.users, m.stocks, m.progress, m.entries;
      tables, pending, this.budget := m, m, budget;
    }

    // -----------------------------------------------------------------------
    // The database
    // -----------------------------------------------------------------------

    method Begin()
      modifies `pending
      ensures pending == tables
    {
      pending := tables;
    }

    method Save() returns (ok: bool)
      modifies `budget
      ensures ok == (old(budget) > 0) && budget == old(budget) - (if ok then 1 else 0)
    {
      ok := budget > 0;
      if ok {
        budget := budget - 1;
      }
    }

    method SaveRow(t: Transaction) returns (ok: bool)
      modifies `budget, `pending
      ensures ok == (old(budget) > 0) && budget == old(budget) - (if ok then 1 else 0)
      ensures pending == if ok then old(pending).(rows := old(pending).rows + [t]) else old(pending)
    {
      ok := Save();
      if ok {
        pending := pending.(rows := pending.rows + [t]);
      }
    }

    method Commit() returns (ok: bool)
      modifies `budget, `tables
      ensures ok == (old(budget) > 0) && budget == old(budget) - (if ok then 1 else 0)
      ensures tables == if ok then pending else old(tables)
    {
      ok := Save();
      if ok {
        tables := pending;
      }
    }

    function Price(stockId: nat): nat
      reads this
    {
      if stockId in stocks then stocks[stockId].currentPrice else 0
    }

    // -----------------------------------------------------------------------
    // Steps that several operations share
    // -----------------------------------------------------------------------

    method SubtractUserCash(userId: nat, amount: nat) returns (ok: bool)
      requires userId in users
      modifies `budget, `users
      ensures ok == (old(budget) > 0) && budget == old(budget) - (if ok then 1 else 0)
      ensures users == old(users)[userId := old(users)[userId].(cash := Wrap64(old(users)[userId].cash - amount))]
    {
      users := users[userId := users[userId].(cash := Wrap64(users[userId].cash - amount))];
      ok := Save();
    }

    method AddUserReservedCash(userId: nat, amount: nat) returns (ok: bool)
      requires userId in users
      modifies `budget, `users
      ensures ok == (old(budget) > 0) && budget == old(budget) - (if ok then 1 else 0)
      ensures users == old(users)[userId := old(users)[userId].(reservedCash := old(users)[userId].reservedCash + amount)]
    {
      users := users[userId := users[userId].(reservedCash := users[userId].reservedCash + amount)];
      ok := Save();
    }

    /** createAsk and createBid: a saved row is in the map at once, although the transaction has yet to
        commit. An order whose row could not be written has no id yet, and o.id is the one its first save
        will give it. */
    method CreateOrder(o: Order) returns (ok: bool)
      modifies `budget, `pending, `progress, `entries
      ensures ok == (old(budget) > 0) && budget == old(budget) - (if ok then 1 else 0)
      ensures ok ==> pending == old(pending).(orders := old(pending).orders + [o],
                                              stored := old(pending).stored[o.id := Progress(0, false)])
      ensures progress == old(progress)[o.id := Progress(0, false)]
      ensures entries == old(entries)[o.id := if ok then Shared else Missing]
    {
      progress := progress[o.id := Progress(0, false)];
      entries := entries[o.id := Missing];
      ok := Save();
      if ok {
        pending := pending.(orders := pending.orders + [o], stored := pending.stored[o.id := Progress(0, false)]);
        entries := entries[o.id := Shared];
      }
    }

    /** The order's row and the record of what it has in deposit, which only bids read again. */
    method SavePlaceOrderTransaction(id: OrderId, t: Transaction) returns (ok: bool)
      modifies `budget, `pending
      ensures ok == (old(budget) >= 2) && (ok ==> budget == old(budget) - 2)
      ensures ok ==> pending == old(pending).(rows := old(pending).rows + [t],
                                              deposits := if id.side == AskSide then old(pending).deposits
                                                          else old(pending).deposits[id := 0 - t.total])
    {
      ok := SaveRow(t);
      if ok {
        ok := Save();
      }
      if ok && id.side == BidSide {
        pending := pending.(deposits := pending.deposits[id := 0 - t.total]);
      }
    }

    method CheckPrice(o: Order) returns (error: Option<OrderError>)
      ensures error == PriceError(View(), o)
    {
      if o.oType == Limit {
        if o.price <= MINIMUM_ORDER_PRICE {
          return Some(MinimumPriceThreshold);
        }
        var upperLimit, lowerLimit := Price(o.stockId) * 120 / 100, Price(o.stockId) * 80 / 100;
        if o.price > upperLimit || o.price < lowerLimit {
          return Some(OrderPriceOutOfWindow);
        }
      }
      return None;
    }

    // -----------------------------------------------------------------------
    // Placing
    // -----------------------------------------------------------------------

    /** When a write fails the error is nil, from an earlier call, and there is no order id. */
    method PlaceBidOrder(o: Order, fee: nat) returns (recorded: bool, error: Option<OrderError>)
      requires o.id.side == BidSide
      modifies this
      ensures var r := PlaceBid(old(View()), o, fee, old(budget));
              View() == r.m && recorded == r.recorded && error == r.error
    {
      recorded := false;
      error := CheckPrice(o);
      if error.Some? {
        return;
      }
      if o.userId !in users {
        return false, Some(UnknownUser);
      }
      if o.quantity > ORDER_LIMIT || o.quantity < 1 {
        return false, Some(OrderStockLimitExceeded);
      }
      var orderPrice := if o.oType == Market then Price(o.stockId) else o.price;
      var reservedCash := o.quantity * orderPrice;
      var cashLeft := Signed64(users[o.userId].cash) - (reservedCash + fee);
      if cashLeft < MINIMUM_CASH_LIMIT {
        return false, Some(NotEnoughCash);
      }
      hide PriceError;
      recorded := ReserveBid(o, fee, reservedCash);
    }

    method ReserveBid(o: Order, fee: nat, reservedCash: nat) returns (ok: bool)
      requires o.id.side == BidSide && o.userId in users
      modifies this
      ensures ok == (old(budget) >= BID_WRITES)
      ensures View() == if ok then BidPlaced(old(View()), o, fee, reservedCash) else Unrecorded(old(View()), o, old(budget))
    {
      Begin();
      var oldUser := users[o.userId];
      hide Wrap64;
      ok := StartBid(o, fee, reservedCash);
      if ok {
        ok := FinishBid(o, fee, reservedCash);
        WrapAdd(oldUser.cash - fee, -(reservedCash as int));
      }
      if !ok {
        users := users[o.userId := oldUser];
      }
    }

    /** The bid, and its user's cash up to the fee's row. */
    method StartBid(o: Order, fee: nat, reservedCash: nat) returns (ok: bool)
      requires o.userId in users
      modifies `budget, `users, `pending, `progress, `entries
      ensures ok == (old(budget) >= 3) && (ok ==> budget == old(budget) - 3)
      ensures o.userId in users && users[o.userId := old(users)[o.userId]] == old(users)
      ensures ok ==> && users[o.userId] == old(users)[o.userId].(cash := Wrap64(old(users)[o.userId].cash - fee),
                                                                 reservedCash := old(users)[o.userId].reservedCash + reservedCash)
                     && pending == old(pending).(orders := old(pending).orders + [o],
                                                 stored := old(pending).stored[o.id := Progress(0, false)])
      ensures progress == old(progress)[o.id := Progress(0, false)]
      ensures entries == old(entries)[o.id := if old(budget) > 0 then Shared else Missing]
    {
      hide Wrap64;
      ok := CreateOrder(o);
      if ok {
        ok := SubtractUserCash(o.userId, fee);
      }
      if ok {
        ok := AddUserReservedCash(o.userId, reservedCash);
      }
    }

    /** The rows, the cash reserved and the commit. */
    method FinishBid(o: Order, fee: nat, reservedCash: nat) returns (ok: bool)
      requires o.id.side == BidSide && o.userId in users
      modifies `budget, `users, `pending, `tables
      ensures ok == (old(budget) >= 5)
      ensures o.userId in users && users[o.userId := old(users)[o.userId]] == old(users)
      ensures ok ==> users[o.userId] == old(users)[o.userId].(cash := Wrap64(old(users)[o.userId].cash - reservedCash))
      ensures tables == if !ok then old(tables) else
                old(pending).(rows := old(pending).rows
                                      + [Row(o.userId, o.stockId, OrderFee, 0, 0, 0, 0, 0 - fee)]
                                      + [Row(o.userId, o.stockId, PlaceOrder, 0, 0, 0, reservedCash, 0 - reservedCash)],
                              deposits := old(pending).deposits[o.id := reservedCash])
    {
      ok := SaveRow(Row(o.userId, o.stockId, OrderFee, 0, 0, 0, 0, 0 - fee));
      if ok {
        ok := SubtractUserCash(o.userId, reservedCash);
      }
      if ok {
        ok := SavePlaceOrderTransaction(o.id, Row(o.userId, o.stockId, PlaceOrder, 0, 0, 0, reservedCash, 0 - reservedCash));
      }
      if ok {
        ok := Commit();
      }
    }

    // -----------------------------------------------------------------------
    // Asks and the short-sell bank
    // -----------------------------------------------------------------------

    /** The bank is read as committed and written in the open transaction. */
    method UpdateShortSellBank(stockId: nat, stockQuantity: int) returns (ok: bool)
      modifies `budget, `pending
      ensures ok == (old(budget) > 0) && budget == old(budget) - (if ok then 1 else 0)
      ensures ok ==> pending == old(pending).(
                       lendBank := old(pending).lendBank[stockId := BankUpdated(Available(tables, stockId), stockQuantity)])
    {
      var availableStocks := Available(tables, stockId);
      ok := Save();
      if ok {
        pending := pending.(lendBank := pending.lendBank[stockId := BankUpdated(availableStocks, stockQuantity)]);
      }
    }

    method CreateShortSellLend(stockId: nat, userId: nat, stockQuantity: nat) returns (ok: bool)
      modifies `budget, `pending
      ensures ok == (old(budget) > 0) && budget == old(budget) - (if ok then 1 else 0)
      ensures ok ==> pending == old(pending).(lends := old(pending).lends + [Lend(stockId, userId, stockQuantity, false)])
    {
      ok := Save();
      if ok {
        pending := pending.(lends := pending.lends + [Lend(stockId, userId, stockQuantity, false)]);
      }
    }

    method SaveShortSellLendTransaction(userId: nat, stockId: nat, q: nat) returns (ok: bool)
      requires pending.lendBank == tables.lendBank
      modifies `budget, `pending
      ensures ok == (old(budget) >= 3) && (ok ==> budget == old(budget) - 3)
      ensures ok ==> pending == LendStocks(old(pending).(stocks := stocks), userId, stockId, q).(stocks := old(pending).stocks)
    {
      ok := UpdateShortSellBank(stockId, Negate32(q));
      if ok {
        ok := SaveRow(Row(userId, stockId, ShortSell, 0, q, Price(stockId), 0, 0));
      }
      if ok {
        ok := CreateShortSellLend(stockId, userId, q);
      }
    }

    method PlaceAskOrder(o: Order, fee: nat) returns (recorded: bool, error: Option<OrderError>)
      requires o.id.side == AskSide
      modifies this
      ensures var r := PlaceAsk(old(View()), o, fee, old(budget));
              View() == r.m && recorded == r.recorded && error == r.error
    {
      recorded := false;
      error := CheckPrice(o);
      if error.Some? {
        return;
      }
      if o.userId !in users {
        return false, Some(UnknownUser);
      }
      if o.quantity > ORDER_LIMIT || o.quantity < 1 {
        return false, Some(OrderStockLimitExceeded);
      }
      hide PriceError, StockCount, ActiveLends;
      var numStocks := StockCount(tables, o.userId, o.stockId);
      assert numStocks == StockCount(View(), o.userId, o.stockId) by { SameRows(tables, View(), o); }
      var shortsellQty := if numStocks >= 0 then o.quantity - numStocks else o.quantity;
      if shortsellQty > 0 {
        if shortsellQty > Available(tables, o.stockId) {
          return false, Some(NotEnoughStocks);
        }
        var lentStocks := ActiveLends(tables, o.userId, o.stockId);
        assert lentStocks == ActiveLends(View(), o.userId, o.stockId) by { SameRows(tables, View(), o); }
        if lentStocks + shortsellQty > SHORT_SELL_BORROW_LIMIT {
          return false, Some(NotEnoughStocks);
        }
      }
      var cashLeft := Signed64(users[o.userId].cash) - fee;
      if cashLeft < MINIMUM_CASH_LIMIT {
        return false, Some(NotEnoughCash);
      }
      recorded := ReserveAsk(o, fee, shortsellQty);
    }

    lemma SameRows(m: Models, m': Models, o: Order)
      requires m.rows == m'.rows && m.lends == m'.lends
      ensures StockCount(m, o.userId, o.stockId) == StockCount(m', o.userId, o.stockId)
      ensures ActiveLends(m, o.userId, o.stockId) == ActiveLends(m', o.userId, o.stockId)
    {
    }

    method ReserveAsk(o: Order, fee: nat, shortsellQty: int) returns (ok: bool)
      requires o.id.side == AskSide && o.userId in users
      modifies this
      ensures ok == (old(budget) >= AskWrites(shortsellQty))
      ensures View() == if ok then AskPlaced(old(View()), o, fee, shortsellQty) else Unrecorded(old(View()), o, old(budget))
    {
      Begin();
      var oldUser := users[o.userId];
      hide Wrap64;
      ok := StartAsk(o, fee);
      if ok && shortsellQty > 0 {
        ok := SaveShortSellLendTransaction(o.userId, o.stockId, shortsellQty);
      }
      if ok {
        ok := SavePlaceOrderTransaction(o.id, Row(o.userId, o.stockId, PlaceOrder, o.quantity, 0 - o.quantity, 0, 0, 0));
      }
      if ok {
        ok := Commit();
      }
      if !ok {
        users := users[o.userId := oldUser];
      }
    }

    /** The ask, its fee and the fee's row. */
    method StartAsk(o: Order, fee: nat) returns (ok: bool)
      requires o.userId in users && pending == tables
      modifies `budget, `users, `pending, `progress, `entries
      ensures ok == (old(budget) >= 3) && (ok ==> budget == old(budget) - 3)
      ensures o.userId in users && users[o.userId := old(users)[o.userId]] == old(users)
      ensures ok ==> users == old(users)[o.userId := old(users)[o.userId].(cash := Wrap64(old(users)[o.userId].cash - fee))]
                     && pending == tables.(orders := tables.orders + [o],
                                           stored := tables.stored[o.id := Progress(0, false)],
                                           rows := tables.rows + [Row(o.userId, o.stockId, OrderFee, 0, 0, 0, 0, 0 - fee)])
      ensures progress == old(progress)[o.id := Progress(0, false)]
      ensures entries == old(entries)[o.id := if old(budget) > 0 then Shared else Missing]
    {
      hide Wrap64;
      ok := CreateOrder(o);
      if ok {
        ok := SubtractUserCash(o.userId, fee);
      }
      if ok {
        ok := SaveRow(Row(o.userId, o.stockId, OrderFee, 0, 0, 0, 0, 0 - fee));
      }
    }

    /** One active lend, in a transaction of its own. */
    method SquareOffLend(i: nat) returns (ok: bool)
      requires i < |tables.lends| && !tables.lends[i].isSquaredOff
      modifies `budget, `pending, `tables
      ensures ok == (old(budget) >= 4) && (ok ==> budget == old(budget) - 4)
      ensures View() == if ok then SquareOff(old(View()), i) else old(View())
    {
      var lend := tables.lends[i];
      hide BankUpdated, Available;
      Begin();
      ok := SaveRow(Row(lend.userId, lend.stockId, ShortSell, 0, 0 - lend.stockQuantity, Price(lend.stockId), 0, 0));
      if ok {
        ok := Save();
      }
      if ok {
        pending := pending.(lends := pending.lends[i := lend.(isSquaredOff := true)]);
        ok := UpdateShortSellBank(lend.stockId, lend.stockQuantity);
      }
      if ok {
        ok := Commit();
      }
    }

    /** Every active lend in turn, until a write fails; those before it stay squared off. */
    method SquareOffLends() returns (ok: bool, ghost processed: nat)
      modifies this
      ensures processed <= |old(tables).lends| && View() == SquaredOffUpTo(old(View()), processed)
      ensures ok ==> processed == |old(tables).lends|
      ensures old(budget) >= 4 * |old(tables).lends| ==> ok
    {
      processed := 0;
      ghost var m := View();
      for i := 0 to |tables.lends|
        invariant i == processed && View() == SquaredOffUpTo(m, i)
        invariant old(budget) >= 4 * |m.lends| ==> budget >= 4 * (|m.lends| - i)
      {
        assert View().lends == tables.lends;
        if !tables.lends[i].isSquaredOff {
          ok := SquareOffLend(i);
          if !ok {
            return;
          }
        }
        processed := processed + 1;
      }
      ok := true;
    }

    // -----------------------------------------------------------------------
    // Cancelling
    // -----------------------------------------------------------------------

    /** getAsk and getBid: the object in the map, or one loaded from the table and put into the map. */
    method LookUp(o: Order) returns (p: Progress)
      requires Findable(View(), o)
      modifies `entries
      ensures View() == LookedUp(old(View()), o) && p == Seen(old(View()), o) && p == Seen(View(), o)
      ensures o.id in entries && entries[o.id] != Missing
    {
      if o.id !in entries || entries[o.id] == Missing {
        entries := entries[o.id := Copy(Look(tables.stored, o))];
      }
      p := if entries[o.id] == Shared then Look(progress, o) else entries[o.id].copy;
    }

    /** Ask.Close and Bid.Close on the object just found to be open: it is marked closed first, and taken
        out of the map when the save succeeds. */
    method Close(o: Order, p: Progress) returns (ok: bool)
      requires o.id in entries && entries[o.id] != Missing && p == Seen(View(), o) && pending == tables
      modifies `entries, `progress, `pending, `budget
      ensures ok == (old(budget) > 0) && budget == old(budget) - (if ok then 1 else 0)
      ensures var m := MarkedClosed(old(View()), o); View() == if ok then TakenOut(m, o) else m
      ensures ok ==> pending == WithRow(tables, o, p.(isClosed := true))
    {
      if entries[o.id] == Shared {
        progress := progress[o.id := p.(isClosed := true)];
      } else {
        entries := entries[o.id := Copy(p.(isClosed := true))];
      }
      ok := Save();
      if ok {
        pending := WithRow(pending, o, p.(isClosed := true));
        entries := entries[o.id := Missing];
      }
    }

    /** A failed write rolls the tables and the user back, but not what happened in memory. */
    method CancelOrder(userId: nat, o: Order) returns (error: Option<OrderError>)
      modifies this
      ensures var r := Accounts.Cancel(old(View()), userId, o, old(budget)); View() == r.m && error == r.error
    {
      hide LookedUp, MarkedClosed, TakenOut, Seen, Refund, Released;
      if userId !in users {
        return Some(UnknownUser);
      }
      if o !in tables.orders && (o.id in tables.stored || o.id !in entries || entries[o.id] == Missing) {
        return Some(InvalidOrderId);
      }
      var p := LookUp(o);
      if o.userId != userId {
        return Some(InvalidOrderId);
      }
      if p.isClosed {
        return Some(OrderAlreadyClosed);
      }
      ghost var m := old(View());
      LookingChangesNothing(m, o);
      Begin();
      var ok := Close(o, p);
      if !ok {
        return Some(DatabaseError);
      }
      if o.id.side == AskSide {
        ok := ReleaseStocks(o, p);
      } else if o.id !in tables.deposits {
        return Some(InvalidOrderId);
      } else {
        ok := RefundBid(o, p, Refund(o, p, tables.deposits[o.id]));
      }
      return if ok then None else Some(DatabaseError);
    }

    /** Closing what was looked up is closing what the map or the table held. */
    lemma LookingChangesNothing(m: Models, o: Order)
      ensures Seen(LookedUp(m, o), o) == Seen(m, o) && LookedUp(m, o).users == m.users
      ensures MarkedClosed(LookedUp(m, o), o) == MarkedClosed(m, o)
    {
    }

    /** The row that returns the ask's stocks, and the commit. */
    method ReleaseStocks(o: Order, p: Progress) returns (ok: bool)
      requires o.id.side == AskSide && o.userId in users
      requires pending == WithRow(tables, o, p.(isClosed := true))
      modifies `budget, `pending, `tables
      ensures ok == (old(budget) >= 2)
      ensures View() == if ok then Released(old(View()), o, p) else old(View())
    {
      ok := SaveRow(Row(o.userId, o.stockId, Kind.CancelOrder, 0 - Unfulfilled(o, p), Unfulfilled(o, p), 0, 0, 0));
      if ok {
        ok := Commit();
      }
    }

    /** saveBidCancelOrderTransaction and the commit. */
    method RefundBid(o: Order, p: Progress, reservedCash: int) returns (ok: bool)
      requires o.id.side == BidSide && o.id in tables.deposits && o.userId in users
      requires reservedCash == Refund(o, p, tables.deposits[o.id])
      requires pending == WithRow(tables, o, p.(isClosed := true))
      modifies `budget, `pending, `tables, `users
      ensures ok == (old(budget) >= 3)
      ensures View() == if ok then Released(old(View()), o, p) else old(View())
    {
      var oldUser := users[o.userId];
      hide Refund, Sub64, Wrap64;
      users := users[o.userId := oldUser.(cash := Wrap64(oldUser.cash + reservedCash),
                                          reservedCash := Sub64(oldUser.reservedCash, reservedCash))];
      ok := Save();
      if ok {
        ok := SaveRow(RefundRow(o, reservedCash));
      }
      if ok {
        ok := Commit();
      }
      if !ok {
        users := users[o.userId := oldUser];
        assert users == old(users);
      }
    }

    /** TriggerStoploss: one save of the object in the queue, in no other transaction. */
    method TriggerStoploss(o: Order) returns (ok: bool)
      modifies `budget, `tables
      ensures ok == (old(budget) > 0) && budget == old(budget) - (if ok then 1 else 0)
      ensures View() == Wake(old(View()), o, ok)
    {
      ok := Save();
      if ok {
        tables := WithRow(tables, o, Look(progress, o));
      }
    }

    // -----------------------------------------------------------------------
    // Buying from the exchange and mortgaging
    // -----------------------------------------------------------------------

    method PerformBuyFromExchangeTransaction(userId: nat, stockId: nat, stockQuantity: nat) returns (error: Option<OrderError>)
      requires stockId in stocks
      modifies this
      ensures var r := BuyFromExchange(old(View()), userId, stockId, stockQuantity, old(budget));
              View() == r.m && error == r.error
    {
      if stockQuantity > BUY_LIMIT {
        return Some(BuyLimitExceeded);
      }
      if userId !in users {
        return Some(UnknownUser);
      }
      var stockQuantityRemoved := stockQuantity;
      if stockQuantityRemoved > stocks[stockId].stocksInExchange {
        stockQuantityRemoved := stocks[stockId].stocksInExchange;
      }
      if stockQuantityRemoved == 0 {
        return Some(NotEnoughStocks);
      }
      if Price(stockId) * stockQuantityRemoved > users[userId].cash {
        return Some(NotEnoughCash);
      }
      hide BuyTax, Bought, TaxRows;
      var ok := TakeFromExchange(userId, stockId, stockQuantityRemoved);
      return if ok then None else Some(DatabaseError);
    }

    method TakeFromExchange(userId: nat, stockId: nat, q: nat) returns (ok: bool)
      requires userId in users && stockId in stocks && 0 < q <= stocks[stockId].stocksInExchange
      modifies this
      ensures ok == (old(budget) >= BuyWrites(BuyTax(SummaryOf(old(View()), userId, stockId), q,
                                                     old(stocks)[stockId].currentPrice, old(users)[userId].total)))
      ensures View() == if ok then ExchangeBought(old(View()), userId, stockId, q) else old(View())
    {
      hide BuyTax, ExchangeBought, Wrap64, BuyWrites;
      var oldUser, oldStock := users[userId], stocks[stockId];
      ghost var was := View();
      var price := Price(stockId);
      PayAndTake(userId, stockId, q, price);
      Begin();
      ok := ChargeAndSave(userId, stockId, q, price, was);
      if !ok {
        users := users[userId := oldUser];
        stocks := stocks[stockId := oldStock];
        assert users == was.users && stocks == was.stocks;
      }
    }

    /** The tax, and all that is written; was is how things were before the purchase. */
    method ChargeAndSave(userId: nat, stockId: nat, q: nat, price: nat, ghost was: Models) returns (ok: bool)
      requires userId in was.users && stockId in was.stocks && 0 < q <= was.stocks[stockId].stocksInExchange
      requires price == was.stocks[stockId].currentPrice && pending == tables
      requires View().(users := was.users, stocks := was.stocks) == was
      requires users == was.users[userId := was.users[userId].(cash := Wrap64(was.users[userId].cash - price * q))]
      requires var s := was.stocks[stockId];
               stocks == was.stocks[stockId := Taken(s, q)]
      modifies `users, `budget, `pending, `tables
      ensures ok == (old(budget) >= BuyWrites(BuyTax(SummaryOf(was, userId, stockId), q, price, was.users[userId].total)))
      ensures if ok then View() == ExchangeBought(was, userId, stockId, q)
              else tables == old(tables) && users[userId := was.users[userId]] == was.users
    {
      BoughtTables(was, userId, stockId, q);
      hide BuyTax, Bought, Wrap64, TaxRows, BuyWrites, Row, ExchangeBought;
      var summary := SummaryOf(tables, userId, stockId);
      var tax := BuyTax(summary, q, price, users[userId].total);
      PayTax(userId, tax);
      WrapAdd(was.users[userId].cash - price * q, -(tax as int));
      assert users == was.users[userId := was.users[userId].(cash := Wrap64(was.users[userId].cash - price * q - tax))];
      var purchase := Row(userId, stockId, FromExchange, 0, q, price, 0, 0 - price * q);
      ok := SaveBuy(userId, stockId, Bought(summary, q, price), purchase, tax);
    }

    lemma BoughtTables(m: Models, userId: nat, stockId: nat, q: nat)
      requires userId in m.users && stockId in m.stocks && 0 < q <= m.stocks[stockId].stocksInExchange
      ensures var s, u, sum := m.stocks[stockId], m.users[userId], SummaryOf(m, userId, stockId);
              var tax := BuyTax(sum, q, s.currentPrice, u.total);
              ExchangeBought(m, userId, stockId, q)
              == m.(users := m.users[userId := u.(cash := Wrap64(u.cash - s.currentPrice * q - tax))],
                    summaries := m.summaries[(userId, stockId) := Bought(sum, q, s.currentPrice)],
                    stocks := m.stocks[stockId := Taken(s, q)],
                    rows := m.rows + [Row(userId, stockId, FromExchange, 0, q, s.currentPrice, 0, 0 - s.currentPrice * q)]
                            + TaxRows(userId, stockId, tax))
    {
      hide BuyTax, Bought, Wrap64, TaxRows, Row;
    }

    /** q stocks go from the exchange into the market. */
    static function Taken(s: Stocks.Stock, q: nat): Stocks.Stock
      requires q <= s.stocksInExchange
    {
      s.(stocksInExchange := s.stocksInExchange - q, stocksInMarket := s.stocksInMarket + q)
    }

    method PayAndTake(userId: nat, stockId: nat, q: nat, price: nat)
      requires userId in users && stockId in stocks && q <= stocks[stockId].stocksInExchange
      modifies `users, `stocks
      ensures users == old(users)[userId := old(users)[userId].(cash := Wrap64(old(users)[userId].cash - price * q))]
      ensures var s := old(stocks)[stockId];
              stocks == old(stocks)[stockId := Taken(s, q)]
    {
      var s := stocks[stockId];
      users := users[userId := users[userId].(cash := Wrap64(users[userId].cash - price * q))];
      stocks := stocks[stockId := Taken(s, q)];
    }

    method PayTax(userId: nat, tax: nat)
      requires userId in users
      modifies `users
      ensures users == old(users)[userId := old(users)[userId].(cash := Wrap64(old(users)[userId].cash - tax))]
    {
      users := users[userId := users[userId].(cash := Wrap64(users[userId].cash - tax))];
    }

    /** The summary, the purchase, its tax if any, the account, the stock and the commit. */
    method SaveBuy(userId: nat, stockId: nat, summary: Summary, t: Transaction, tax: nat) returns (ok: bool)
      requires pending == tables
      modifies `budget, `pending, `tables
      ensures ok == (old(budget) >= BuyWrites(tax))
      ensures tables == if !ok then old(tables) else
                old(tables).(summaries := old(tables).summaries[(userId, stockId) := summary],
                             rows := old(tables).rows + [t] + TaxRows(userId, stockId, tax))
    {
      ok := Save();
      if ok {
        pending := pending.(summaries := pending.summaries[(userId, stockId) := summary]);
        ok := SaveRow(t);
      }
      if ok && tax != 0 {
        ok := SaveRow(Row(userId, stockId, Tax, 0, 0, 0, 0, 0 - tax));
      }
      assert old(tables).rows + [t] + [] == old(tables).rows + [t];
      if ok {
        ok := Save();
      }
      if ok {
        ok := Save();
      }
      if ok {
        ok := Commit();
      }
    }

    method GetStocksInBank(k: MortgageKey) returns (stocksInBank: Option<int>)
      ensures stocksInBank == if k in pending.mortgages then Some(pending.mortgages[k]) else None
    {
      stocksInBank := if k in pending.mortgages then Some(pending.mortgages[k]) else None;
    }

    /** Mortgage: insert or update the row, if the user has the stocks. */
    method MortgageStocksAction(userId: nat, stockId: nat, stockQuantity: nat, mortgagePrice: nat)
      returns (trTotal: int, error: Option<OrderError>)
      requires stockQuantity > 0 && pending == tables
      modifies `budget, `pending
      ensures var k := MortgageKey(userId, stockId, mortgagePrice);
              if stockQuantity > StockCount(tables, userId, stockId) then
                error == Some(NotEnoughStocks)
              else if old(budget) == 0 then error == Some(DatabaseError)
              else
                && error == None && trTotal == DepositAmount(mortgagePrice, stockQuantity) && budget == old(budget) - 1
                && pending == tables.(mortgages := tables.mortgages[k := InBank(tables, k) + stockQuantity])
    {
      trTotal := 0;
      var stockOwned := StockCount(tables, userId, stockId);
      if stockQuantity > stockOwned {
        return 0, Some(NotEnoughStocks);
      }
      var k := MortgageKey(userId, stockId, mortgagePrice);
      var stocksInBank := GetStocksInBank(k);
      var ok := Save();
      if !ok {
        return 0, Some(DatabaseError);
      }
      if stocksInBank == None {
        pending := pending.(mortgages := pending.mortgages[k := stockQuantity]);
      } else {
        pending := pending.(mortgages := pending.mortgages[k := stocksInBank.value + stockQuantity]);
      }
      return DepositAmount(mortgagePrice, stockQuantity), None;
    }

    /** Retrieve: update the row, or delete it when it is used up. */
    method RetrieveStocksAction(userId: nat, stockId: nat, stockQuantity: nat, userCash: int, retrievePrice: nat)
      returns (trTotal: int, error: Option<OrderError>)
      requires pending == tables
      modifies `budget, `pending
      ensures var k := MortgageKey(userId, stockId, retrievePrice);
              if k !in tables.mortgages then error == Some(InvalidRetrievePrice)
              else if userCash < stockQuantity * retrievePrice then error == Some(NotEnoughCash)
              else if stockQuantity > tables.mortgages[k] then error == Some(NotEnoughStocks)
              else if old(budget) == 0 then error == Some(DatabaseError)
              else
                && error == None && trTotal == RetrieveAmount(retrievePrice, stockQuantity) && budget == old(budget) - 1
                && pending == tables.(mortgages := if stockQuantity == tables.mortgages[k] then tables.mortgages - {k}
                                                   else tables.mortgages[k := tables.mortgages[k] - stockQuantity])
    {
      var k := MortgageKey(userId, stockId, retrievePrice);
      var stocksInBank := GetStocksInBank(k);
      if stocksInBank == None {
        return 0, Some(InvalidRetrievePrice);
      }
      if userCash < stockQuantity * retrievePrice {
        return 0, Some(NotEnoughCash);
      }
      var ok;
      if stockQuantity < stocksInBank.value {
        ok := Save();
        pending := pending.(mortgages := pending.mortgages[k := stocksInBank.value - stockQuantity]);
      } else if stockQuantity == stocksInBank.value {
        ok := Save();
        pending := pending.(mortgages := pending.mortgages - {k});
      } else {
        return 0, Some(NotEnoughStocks);
      }
      if !ok {
        return 0, Some(DatabaseError);
      }
      return RetrieveAmount(retrievePrice, stockQuantity), None;
    }

    method PerformMortgageTransaction(userId: nat, stockId: nat, stockQuantity: int, retrievePrice: nat)
      returns (error: Option<OrderError>)
      modifies this
      ensures var r := PerformMortgage(old(View()), userId, stockId, stockQuantity, retrievePrice, old(budget));
              View() == r.m && error == r.error
    {
      if userId !in users {
        return Some(UnknownUser);
      }
      Begin();
      hide Retrieve, Deposit;
      if stockQuantity >= 0 {
        error := RetrieveAndSave(userId, stockId, stockQuantity, retrievePrice);
      } else {
        error := MortgageAndSave(userId, stockId, 0 - stockQuantity, Price(stockId));
      }
    }

    /** The action, then the row and the user. */
    method RetrieveAndSave(userId: nat, stockId: nat, q: nat, retrievePrice: nat) returns (error: Option<OrderError>)
      requires userId in users && pending == tables
      modifies `budget, `pending, `tables, `users
      ensures var r := Retrieve(old(View()), userId, stockId, q, retrievePrice);
              if r.error.Some? then View() == old(View()) && error == r.error
              else if old(budget) < MORTGAGE_WRITES then View() == old(View()) && error == Some(DatabaseError)
              else View() == r.m && error == None
    {
      hide RetrieveAmount, Wrap64;
      var trTotal;
      trTotal, error := RetrieveStocksAction(userId, stockId, q, Signed64(users[userId].cash), retrievePrice);
      if error.None? {
        var ok := SaveMortgage(userId, trTotal, Row(userId, stockId, Mortgage, 0, q, retrievePrice, 0, trTotal));
        error := if ok then None else Some(DatabaseError);
      }
    }

    method MortgageAndSave(userId: nat, stockId: nat, q: nat, mortgagePrice: nat) returns (error: Option<OrderError>)
      requires userId in users && pending == tables && q > 0 && mortgagePrice == Price(stockId)
      modifies `budget, `pending, `tables, `users
      ensures var r := Deposit(old(View()), userId, stockId, q);
              if r.error.Some? then View() == old(View()) && error == r.error
              else if old(budget) < MORTGAGE_WRITES then View() == old(View()) && error == Some(DatabaseError)
              else View() == r.m && error == None
    {
      hide StockCount, DepositAmount, Wrap64;
      CountFromRows(userId, stockId);
      var trTotal;
      trTotal, error := MortgageStocksAction(userId, stockId, q, mortgagePrice);
      if error.None? {
        var ok := SaveMortgage(userId, trTotal, Row(userId, stockId, Mortgage, 0, 0 - q, mortgagePrice, 0, trTotal));
        error := if ok then None else Some(DatabaseError);
      }
    }

    lemma CountFromRows(userId: nat, stockId: nat)
      ensures StockCount(tables, userId, stockId) == StockCount(View(), userId, stockId)
    {
    }

    method SaveMortgage(userId: nat, trTotal: int, t: Transaction) returns (ok: bool)
      requires userId in users
      modifies `budget, `pending, `tables, `users
      ensures ok == (old(budget) >= 3)
      ensures tables == if ok then old(pending).(rows := old(pending).rows + [t]) else old(tables)
      ensures users == if !ok then old(users)
                       else old(users)[userId := old(users)[userId].(cash := Wrap64(old(users)[userId].cash + trTotal))]
    {
      var oldUser := users[userId];
      users := users[userId := oldUser.(cash := Wrap64(oldUser.cash + trTotal))];
      ok := SaveRow(t);
      if ok {
        ok := Save();
      }
      if ok {
        ok := Commit();
      }
      if !ok {
        users := users[userId := oldUser];
      }
    }
  }
}
