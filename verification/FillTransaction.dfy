/** PerformOrderFillTransaction step by step, with its writes that may fail and its rollbacks. */
module FillTransaction {
  import opened Words
  import opened Orders
  import opened Wrappers
  import opened State
  import opened Taxes
  import opened Accounts

  /** A row of the Users table in memory. */
  class Account {
    const id: nat
    var cash: int
    var reservedCash: int
    const total: int

    function Value(): User
      reads this
    {
      User(cash, reservedCash, total)
    }

    constructor (id: nat, u: User)
      ensures this.id == id && Value() == u
    {
      this.id, cash, reservedCash, total := id, u.cash, u.reservedCash, u.total;
    }
  }

  /** An Ask or Bid in memory: the fields fills and cancellations write, and what asksMap or bidsMap
      holds under its id. */
  class OpenOrder {
    const order: Order
    var fulfilled: nat
    var isClosed: bool
    var mapped: Entry

    function Value(): Progress
      reads this
    {
      Progress(fulfilled, isClosed)
    }

    constructor (order: Order, p: Progress, mapped: Entry)
      ensures this.order == order && Value() == p && this.mapped == mapped
    {
      this.order, fulfilled, isClosed, this.mapped := order, p.fulfilled, p.isClosed, mapped;
    }

    /** Ask.Close and Bid.Close: false when already closed or when the save fails. A failed save leaves
        the order marked closed in memory, and in the map; a saved closing takes it out of the map at
        once, although the database transaction has yet to commit. */
    method Close(db: Database) returns (ok: bool)
      modifies this`isClosed, this`mapped, db`budget
      ensures isClosed && mapped == if ok then Missing else old(mapped)
      ensures ok == (!old(isClosed) && old(db.budget) > 0)
      ensures db.budget == old(db.budget) - (if ok then 1 else 0)
    {
      if isClosed {
        return false;
      }
      isClosed := true;
      ok := db.Save();
      if ok {
        mapped := Missing;
      }
    }
  }

  /** The database: committed ledger rows and summaries, and those of the open transaction. */
  class Database {
    var rows: seq<Transaction>
    var askSummary: Option<Summary>
    var bidSummary: Option<Summary>
    const deposit: Option<int>
    var pendingRows: seq<Transaction>
    var pendingAskSummary: Option<Summary>
    var pendingBidSummary: Option<Summary>
    var budget: nat

    constructor (deposit: Option<int>, askSummary: Option<Summary>, bidSummary: Option<Summary>, budget: nat)
      ensures this.deposit == deposit && this.askSummary == askSummary && this.bidSummary == bidSummary
      ensures rows == [] && this.budget == budget
    {
      this.deposit, this.askSummary, this.bidSummary, this.budget := deposit, askSummary, bidSummary, budget;
      rows, pendingRows, pendingAskSummary, pendingBidSummary := [], [], askSummary, bidSummary;
    }

    method Begin()
      modifies this`pendingRows, this`pendingAskSummary, this`pendingBidSummary
      ensures pendingRows == [] && pendingAskSummary == askSummary && pendingBidSummary == bidSummary
    {
      pendingRows, pendingAskSummary, pendingBidSummary := [], askSummary, bidSummary;
    }

    method Save() returns (ok: bool)
      modifies this`budget
      ensures ok == (old(budget) > 0) && budget == old(budget) - (if ok then 1 else 0)
    {
      ok := budget > 0;
      if ok {
        budget := budget - 1;
      }
    }

    method SaveRow(t: Transaction) returns (ok: bool)
      modifies this`budget, this`pendingRows
      ensures ok == (old(budget) > 0) && budget == old(budget) - (if ok then 1 else 0)
      ensures pendingRows == old(pendingRows) + if ok then [t] else []
    {
      ok := Save();
      if ok {
        pendingRows := pendingRows + [t];
      }
    }

    method SaveAskSummary(s: Summary) returns (ok: bool)
      modifies this`budget, this`pendingAskSummary
      ensures ok == (old(budget) > 0) && budget == old(budget) - (if ok then 1 else 0)
      ensures ok ==> pendingAskSummary == Some(s)
    {
      ok := Save();
      if ok {
        pendingAskSummary := Some(s);
      }
    }

    method SaveBidSummary(s: Summary) returns (ok: bool)
      modifies this`budget, this`pendingBidSummary
      ensures ok == (old(budget) > 0) && budget == old(budget) - (if ok then 1 else 0)
      ensures ok ==> pendingBidSummary == Some(s)
    {
      ok := Save();
      if ok {
        pendingBidSummary := Some(s);
      }
    }

    method Commit() returns (ok: bool)
      modifies this
      ensures ok == (old(budget) > 0)
      ensures rows == old(rows) + if ok then old(pendingRows) else []
      ensures askSummary == if ok then old(pendingAskSummary) else old(askSummary)
      ensures bidSummary == if ok then old(pendingBidSummary) else old(bidSummary)
    {
      ok := Save();
      if ok {
        rows, askSummary, bidSummary := rows + pendingRows, pendingAskSummary, pendingBidSummary;
      }
    }
  }

  /** One fill: its two orders, their users and the database. */
  class OrderFill {
    const ask: OpenOrder
    const bid: OpenOrder
    const asker: Account
    const bidder: Account
    const db: Database

    constructor (ask: OpenOrder, bid: OpenOrder, asker: Account, bidder: Account, db: Database)
      ensures this.ask == ask && this.bid == bid && this.asker == asker && this.bidder == bidder && this.db == db
    {
      this.ask, this.bid, this.asker, this.bidder, this.db := ask, bid, asker, bidder, db;
    }

    ghost predicate Distinct() {
      && ask != bid && asker != bidder
      && asker.id == ask.order.userId && bidder.id == bid.order.userId
    }

    ghost function View(): Parties
      reads ask, bid, asker, bidder, db
    {
      Parties(ask.Value(), bid.Value(), asker.Value(), bidder.Value(), db.askSummary, db.bidSummary, bid.mapped)
    }

    /** saveBidCancelOrderTransaction: the unfilled part of the reservation goes back to the user. */
    method SaveBidCancelOrderTransaction() returns (ok: bool)
      requires Distinct() && db.deposit.Some?
      modifies bidder`cash, bidder`reservedCash, db`budget, db`pendingRows
      ensures ok == (old(db.budget) >= 2)
      ensures ok ==> db.budget == old(db.budget) - 2
      ensures var refund := Refund(bid.order, bid.Value(), db.deposit.value);
              && bidder.Value() == Refunded(old(bidder.Value()), refund)
              && (ok ==> db.pendingRows == old(db.pendingRows) + [RefundRow(bid.order, refund)])
    {
      var reservedCash := Portion(db.deposit.value, Unfulfilled(bid.order, bid.Value()), bid.order.quantity);
      var cancelOrderTransaction := RefundRow(bid.order, reservedCash);
      bidder.cash := Wrap64(bidder.cash + reservedCash);
      bidder.reservedCash := Sub64(bidder.reservedCash, reservedCash);
      ok := db.Save();
      if !ok {
        return false;
      }
      ok := db.SaveRow(cancelOrderTransaction);
    }

    method RevertToOldState(ghost x: Parties, askerCash: int, bidderCash: int, bidderReserved: int,
                            askFulfilled: nat, bidFulfilled: nat, askClosed: bool, bidClosed: bool)
      requires Distinct()
      modifies ask`fulfilled, ask`isClosed, bid`fulfilled, bid`isClosed, asker`cash, bidder`cash, bidder`reservedCash
      ensures asker.cash == askerCash && bidder.cash == bidderCash && bidder.reservedCash == bidderReserved
      ensures ask.Value() == Progress(askFulfilled, askClosed) && bid.Value() == Progress(bidFulfilled, bidClosed)
    {
      asker.cash := askerCash;
      bidder.cash := bidderCash;
      bidder.reservedCash := bidderReserved;
      ask.fulfilled := askFulfilled;
      bid.fulfilled := bidFulfilled;
      ask.isClosed := askClosed;
      bid.isClosed := bidClosed;
    }

    /** The branch for a buyer without enough cash: close the bid and return its reservation. */
    method CloseForLackOfCash() returns (bidStatus: FillStatus)
      requires Distinct() && db.deposit.Some? && !bid.isClosed
      requires db.pendingRows == [] && db.pendingAskSummary == db.askSummary && db.pendingBidSummary == db.bidSummary
      modifies ask`fulfilled, ask`isClosed, bid`fulfilled, bid`isClosed, bid`mapped, asker`cash, bidder`cash,
               bidder`reservedCash, db
      ensures var refund := Refund(bid.order, old(bid.Value()), db.deposit.value);
              if old(db.budget) < CLOSE_WRITES then
                && bidStatus == Undone && db.rows == old(db.rows)
                && View() == old(View()).(entry := if old(db.budget) == 0 then old(bid.mapped) else Missing)
              else
                && bidStatus == Done
                && View() == old(View()).(bid := old(bid.Value()).(isClosed := true),
                                          bidder := Refunded(old(bidder.Value()), refund), entry := Missing)
                && db.rows == old(db.rows) + [RefundRow(bid.order, refund)]
    {
      var askerCash, bidderCash, bidderReserved := asker.cash, bidder.cash, bidder.reservedCash;
      var askFulfilled, bidFulfilled, askClosed, bidClosed := ask.fulfilled, bid.fulfilled, ask.isClosed, bid.isClosed;
      ghost var x := View();
      var ok := bid.Close(db);
      if ok {
        ok := SaveBidCancelOrderTransaction();
      }
      if ok {
        ok := db.Commit();
      }
      if !ok {
        RevertToOldState(x, askerCash, bidderCash, bidderReserved, askFulfilled, bidFulfilled, askClosed, bidClosed);
        return Undone;
      }
      return Done;
    }

    /** Save the tax row when there is tax to pay. */
    method SaveTax(userId: nat, stockId: nat, tax: nat) returns (ok: bool)
      modifies db`budget, db`pendingRows
      ensures ok == (tax == 0 || old(db.budget) > 0)
      ensures db.budget == old(db.budget) - (if ok && tax != 0 then 1 else 0)
      ensures ok ==> db.pendingRows == old(db.pendingRows) + TaxRows(userId, stockId, tax)
    {
      ok := true;
      if tax != 0 {
        ok := db.SaveRow(Row(userId, stockId, Tax, 0, 0, 0, 0, 0 - tax));
      } else {
        assert db.pendingRows + [] == db.pendingRows;
      }
    }

    /** The ledger rows of a trade. */
    method SaveTradeRows(price: nat, qty: nat, total: nat, part: int, askTax: nat, bidTax: nat) returns (ok: bool)
      requires db.pendingRows == []
      modifies db`budget, db`pendingRows
      ensures ok == (old(db.budget) >= FillWrites(askTax, bidTax) - 8)
      ensures ok ==> db.budget == old(db.budget) - (FillWrites(askTax, bidTax) - 8)
      ensures var rows := [Row(ask.order.userId, ask.order.stockId, Kind.OrderFill, 0 - qty, 0, price, 0, total),
                           Row(bid.order.userId, bid.order.stockId, Kind.OrderFill, 0, qty, price, -part, part - total)]
                          + TaxRows(ask.order.userId, ask.order.stockId, askTax)
                          + TaxRows(bid.order.userId, bid.order.stockId, bidTax);
              ok ==> db.pendingRows == rows
    {
      hide TaxRows;
      ok := db.SaveRow(Row(ask.order.userId, ask.order.stockId, Kind.OrderFill, 0 - qty, 0, price, 0, total));
      if ok {
        ok := db.SaveRow(Row(bid.order.userId, bid.order.stockId, Kind.OrderFill, 0, qty, price, -part, part - total));
      }
      if ok {
        ok := SaveTax(ask.order.userId, ask.order.stockId, askTax);
      }
      if ok {
        ok := SaveTax(bid.order.userId, bid.order.stockId, bidTax);
      }
    }

    /** The rows whose new values are already in memory: both users, both orders, the order fill. */
    method SaveParties() returns (ok: bool)
      modifies db`budget
      ensures ok == (old(db.budget) >= 5)
      ensures ok ==> db.budget == old(db.budget) - 5
    {
      ok := db.Save();
      if ok { ok := db.Save(); }
      if ok { ok := db.Save(); }
      if ok { ok := db.Save(); }
      if ok { ok := db.Save(); }
    }

    /** The saves of a trade, in the source's order, up to the first that fails. */
    method SaveTrade(price: nat, qty: nat, total: nat, part: int, askTax: nat, bidTax: nat,
                     askSum: Summary, bidSum: Summary) returns (ok: bool)
      requires db.pendingRows == [] && db.pendingAskSummary == db.askSummary && db.pendingBidSummary == db.bidSummary
      modifies db
      ensures ok == (old(db.budget) >= FillWrites(askTax, bidTax))
      ensures db.rows == old(db.rows) + if !ok then [] else
              [Row(ask.order.userId, ask.order.stockId, Kind.OrderFill, 0 - qty, 0, price, 0, total),
               Row(bid.order.userId, bid.order.stockId, Kind.OrderFill, 0, qty, price, -part, part - total)]
              + TaxRows(ask.order.userId, ask.order.stockId, askTax)
              + TaxRows(bid.order.userId, bid.order.stockId, bidTax)
      ensures db.askSummary == (if ok then Some(askSum) else old(db.askSummary))
      ensures db.bidSummary == (if ok then Some(bidSum) else old(db.bidSummary))
    {
      hide TaxRows;
      ok := db.SaveAskSummary(askSum);
      if ok {
        ok := db.SaveBidSummary(bidSum);
      }
      if ok {
        ok := SaveTradeRows(price, qty, total, part, askTax, bidTax);
      }
      if ok {
        ok := SaveParties();
      }
      if ok {
        ok := db.Commit();
      }
      assert old(db.rows) + [] == old(db.rows);
    }

    /** Taxes and saves, once the trade has been entered in memory; x is how things were before. */
    method PayAndSave(price: nat, qty: nat, total: nat, part: int, ghost x: Parties) returns (ok: bool)
      requires Distinct() && qty > 0 && total == price * qty && db.deposit.Some?
      requires part == Portion(db.deposit.value, qty, bid.order.quantity)
      requires db.pendingRows == [] && db.pendingAskSummary == db.askSummary && db.pendingBidSummary == db.bidSummary
      requires asker.Value() == x.asker.(cash := Wrap64(x.asker.cash + qty * price))
      requires bidder.Value() == x.bidder.(cash := Wrap64(CashLeft(x, bid.order, db.deposit.value, price, qty)),
                                           reservedCash := Max0(x.bidder.reservedCash - part))
      requires ask.Value() == FilledBy(ask.order, x.ask, qty) && bid.Value() == FilledBy(bid.order, x.bid, qty)
      requires db.askSummary == x.askSum && db.bidSummary == x.bidSum && bid.mapped == x.entry
      modifies asker`cash, bidder`cash, db
      ensures ok == (old(db.budget) >= FillWrites(AskTax(x, price, qty), BidTax(x, price, qty)))
      ensures if ok then
                && View() == Traded(ask.order, bid.order, x, db.deposit.value, price, qty)
                && db.rows == old(db.rows) + TradeRows(ask.order, bid.order, x, db.deposit.value, price, qty)
              else db.rows == old(db.rows) && db.askSummary == x.askSum && db.bidSummary == x.bidSum
    {
      hide TaxRows, SellTax, BuyTax, Sold, Bought, Portion, Wrap64, CashLeft, FilledBy, FillWrites;
      var askTax := SellTax(db.askSummary, qty, price, asker.total);
      asker.cash := Wrap64(asker.cash - askTax);
      WrapAdd(x.asker.cash + qty * price, -(askTax as int));
      var bidTax := BuyTax(db.bidSummary, qty, price, bidder.total);
      bidder.cash := Wrap64(bidder.cash - bidTax);
      WrapAdd(CashLeft(x, bid.order, db.deposit.value, price, qty), -(bidTax as int));
      ok := SaveTrade(price, qty, total, part, askTax, bidTax, Sold(db.askSummary, qty, price), Bought(db.bidSummary, qty, price));
    }

    /** The rest of PerformOrderFillTransaction, for two open orders. */
    method FillOpenOrders(stockTradePrice: nat, stockTradeQty: nat)
      returns (askStatus: FillStatus, bidStatus: FillStatus, traded: bool)
      requires Distinct() && stockTradeQty > 0 && !ask.isClosed && !bid.isClosed
      modifies ask`fulfilled, ask`isClosed, bid`fulfilled, bid`isClosed, bid`mapped, asker`cash, bidder`cash,
               bidder`reservedCash, db
      ensures var r := FillCore(ask.order, bid.order, old(View()), db.deposit, stockTradePrice, stockTradeQty, old(db.budget));
              && View() == r.x && db.rows == old(db.rows) + r.rows
              && askStatus == r.ask && bidStatus == r.bid && traded == r.traded
    {
      hide TaxRows, AskTax, BidTax, Sold, Bought, Portion, Wrap64, FillWrites, TradeRows;
      askStatus, bidStatus, traded := Undone, Undone, false;
      db.Begin();
      if db.deposit == None {
        return;
      }
      var reservedCashForTrade := Portion(db.deposit.value, stockTradeQty, bid.order.quantity);
      var total := stockTradePrice * stockTradeQty;
      var cashLeft := Signed64(bidder.cash) - total + reservedCashForTrade;

      var askerOldCash, bidderOldCash, bidderOldReserved := asker.cash, bidder.cash, bidder.reservedCash;
      var oldAskFulfilled, oldBidFulfilled := ask.fulfilled, bid.fulfilled;
      var oldAskIsClosed, oldBidIsClosed := ask.isClosed, bid.isClosed;
      ghost var x := View();

      asker.cash := Wrap64(asker.cash + stockTradeQty * stockTradePrice);
      bidder.cash := Wrap64(cashLeft);
      bidder.reservedCash := Max0(bidder.reservedCash - reservedCashForTrade);
      ask.fulfilled := ask.fulfilled + stockTradeQty;
      bid.fulfilled := bid.fulfilled + stockTradeQty;
      ask.isClosed := ask.order.quantity == ask.fulfilled;
      bid.isClosed := bid.order.quantity == bid.fulfilled;

      if cashLeft < MINIMUM_CASH_LIMIT {
        RevertToOldState(x, askerOldCash, bidderOldCash, bidderOldReserved,
                         oldAskFulfilled, oldBidFulfilled, oldAskIsClosed, oldBidIsClosed);
        assert View() == x;
        bidStatus := CloseForLackOfCash();
        return;
      }

      var ok := PayAndSave(stockTradePrice, stockTradeQty, total, reservedCashForTrade, x);
      if !ok {
        RevertToOldState(x, askerOldCash, bidderOldCash, bidderOldReserved,
                         oldAskFulfilled, oldBidFulfilled, oldAskIsClosed, oldBidIsClosed);
        assert View() == x;
        return;
      }
      askStatus := if ask.isClosed then Done else Undone;
      bidStatus := if bid.isClosed then Done else Undone;
      traded := true;
    }

    method PerformOrderFillTransaction(stockTradePrice: nat, stockTradeQty: nat)
      returns (askStatus: FillStatus, bidStatus: FillStatus, traded: bool)
      requires Distinct() && (stockTradeQty > 0 || ask.isClosed || bid.isClosed)
      modifies ask`fulfilled, ask`isClosed, bid`fulfilled, bid`isClosed, bid`mapped, asker`cash, bidder`cash,
               bidder`reservedCash, db
      ensures var r := FillCore(ask.order, bid.order, old(View()), db.deposit, stockTradePrice, stockTradeQty, old(db.budget));
              && View() == r.x && db.rows == old(db.rows) + r.rows
              && askStatus == r.ask && bidStatus == r.bid && traded == r.traded
      ensures !traded && bidStatus != Done ==> View().(entry := old(bid.mapped)) == old(View()) && db.rows == old(db.rows)
      ensures !traded && bidStatus == Done
              ==> var refund := Refund(bid.order, old(bid.Value()), db.deposit.value);
                  && askStatus == Undone
                  && View().(bid := old(View()).bid, bidder := old(View()).bidder, entry := old(bid.mapped)) == old(View())
                  && bid.Value() == old(bid.Value()).(isClosed := true)
                  && bidder.Value() == Refunded(old(bidder.Value()), refund) && bid.mapped == Missing
                  && db.rows == old(db.rows) + [RefundRow(bid.order, refund)]
    {
      hide TaxRows, SellTax, BuyTax, Sold, Bought, Portion, Refund, RefundRow, Refunded, Wrap64;
      askStatus, bidStatus, traded := Undone, Undone, false;
      if ask.isClosed {
        askStatus := AlreadyClosed;
      }
      if bid.isClosed {
        bidStatus := AlreadyClosed;
      }
      if askStatus == AlreadyClosed || bidStatus == AlreadyClosed {
        return;
      }
      askStatus, bidStatus, traded := FillOpenOrders(stockTradePrice, stockTradeQty);
    }
  }
}
