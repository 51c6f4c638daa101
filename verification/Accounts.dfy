/** What models/User.go and models/ShortSell.go do to accounts, orders and the ledger, as values.
    A database transaction commits when all its writes succeed: budget is how many writes succeed. */
module Accounts {
  import opened Words
  import opened Orders
  import opened Wrappers
  import opened State
  import opened Taxes
  import opened Sums
  import Stocks

  const ORDER_LIMIT: nat := 50
  const BUY_LIMIT: nat := 30
  const SHORT_SELL_BORROW_LIMIT: nat := 20
  const MINIMUM_CASH_LIMIT: int := 0

  function Row(userId: nat, stockId: nat, kind: Kind, reservedStock: int, stock: int, price: nat,
               reservedCash: int, total: int): Transaction {
    Transaction(userId, stockId, kind, reservedStock, stock, price, reservedCash, total)
  }

  // -------------------------------------------------------------------------
  // Filling: PerformOrderFillTransaction on the records it touches
  // -------------------------------------------------------------------------

  /** The two orders' progress, the two users, their summaries for the stock and what bidsMap holds
      for the bid. */
  datatype Parties = Parties(ask: Progress, bid: Progress, asker: User, bidder: User,
                             askSum: Option<Summary>, bidSum: Option<Summary>, entry: Entry)

  datatype FillOutcome = FillOutcome(x: Parties, rows: seq<Transaction>, ask: FillStatus, bid: FillStatus,
                                     traded: bool)

  /** The part of a reservation that belongs to part of the order's stocks. */
  function Portion(reserved: int, part: nat, whole: nat): int {
    if whole == 0 then 0 else reserved * part / whole
  }

  function Max0(a: int): int {
    if a < 0 then 0 else a
  }

  /** What the trade costs the buyer beyond what was reserved for it. */
  function CashLeft(x: Parties, b: Order, reserved: int, price: nat, qty: nat): int {
    Signed64(x.bidder.cash) - price * qty + Portion(reserved, qty, b.quantity)
  }

  function AskTax(x: Parties, price: nat, qty: nat): nat {
    SellTax(x.askSum, qty, price, x.asker.total)
  }

  function BidTax(x: Parties, price: nat, qty: nat): nat {
    BuyTax(x.bidSum, qty, price, x.bidder.total)
  }

  function TaxRows(userId: nat, stockId: nat, tax: nat): seq<Transaction> {
    if tax == 0 then [] else [Row(userId, stockId, Tax, 0, 0, 0, 0, 0 - tax)]
  }

  /** Two summaries, two trade rows, the tax rows, two users, two orders, the order fill, the commit. */
  function FillWrites(askTax: nat, bidTax: nat): nat {
    10 + (if askTax == 0 then 0 else 1) + (if bidTax == 0 then 0 else 1)
  }

  /** What a trade of a and b writes. */
  function WritesNeeded(m: Models, a: Order, b: Order, price: nat, qty: nat): nat
    requires a.userId in m.users && b.userId in m.users
  {
    var x := PartiesOf(m, a, b);
    FillWrites(AskTax(x, price, qty), BidTax(x, price, qty))
  }

  /** Save the bid, which also takes it out of bidsMap, then the user and the refund row, and commit. */
  const CLOSE_WRITES: nat := 4

  function TradeRows(a: Order, b: Order, x: Parties, reserved: int, price: nat, qty: nat): seq<Transaction> {
    var total, part := price * qty, Portion(reserved, qty, b.quantity);
    [Row(a.userId, a.stockId, OrderFill, 0 - qty, 0, price, 0, total),
     Row(b.userId, b.stockId, OrderFill, 0, qty, price, -part, part - total)]
    + TaxRows(a.userId, a.stockId, AskTax(x, price, qty))
    + TaxRows(b.userId, b.stockId, BidTax(x, price, qty))
  }

  function Traded(a: Order, b: Order, x: Parties, reserved: int, price: nat, qty: nat): Parties
    requires qty > 0
  {
    Parties(FilledBy(a, x.ask, qty), FilledBy(b, x.bid, qty),
            x.asker.(cash := Wrap64(x.asker.cash + qty * price - AskTax(x, price, qty))),
            x.bidder.(cash := Wrap64(CashLeft(x, b, reserved, price, qty) - BidTax(x, price, qty)),
                      reservedCash := Max0(x.bidder.reservedCash - Portion(reserved, qty, b.quantity))),
            Some(Sold(x.askSum, qty, price)), Some(Bought(x.bidSum, qty, price)), x.entry)
  }

  function Refund(b: Order, p: Progress, reserved: int): int {
    Portion(reserved, Unfulfilled(b, p), b.quantity)
  }

  function Refunded(u: User, refund: int): User {
    u.(cash := Wrap64(u.cash + refund), reservedCash := Sub64(u.reservedCash, refund))
  }

  function RefundRow(b: Order, refund: int): Transaction {
    Row(b.userId, b.stockId, CancelOrder, 0, 0, 0, -refund, refund)
  }

  /** Either everything the fill does happens, or nothing but, when a closing fails after its first
      write, the loss of the bid's entry in bidsMap. */
  function FillCore(a: Order, b: Order, x: Parties, reserved: Option<int>, price: nat, qty: nat, budget: nat): FillOutcome
    requires qty > 0 || x.ask.isClosed || x.bid.isClosed
  {
    if x.ask.isClosed || x.bid.isClosed then
      FillOutcome(x, [], if x.ask.isClosed then AlreadyClosed else Undone,
                  if x.bid.isClosed then AlreadyClosed else Undone, false)
    else if reserved.None? then FillOutcome(x, [], Undone, Undone, false)
    else if CashLeft(x, b, reserved.value, price, qty) < MINIMUM_CASH_LIMIT then
      if budget == 0 then FillOutcome(x, [], Undone, Undone, false)
      else if budget < CLOSE_WRITES then FillOutcome(x.(entry := Missing), [], Undone, Undone, false)
      else
        var refund := Refund(b, x.bid, reserved.value);
        FillOutcome(x.(bid := x.bid.(isClosed := true), bidder := Refunded(x.bidder, refund), entry := Missing),
                    [RefundRow(b, refund)], Undone, Done, false)
    else if budget < FillWrites(AskTax(x, price, qty), BidTax(x, price, qty)) then
      FillOutcome(x, [], Undone, Undone, false)
    else
      var y := Traded(a, b, x, reserved.value, price, qty);
      FillOutcome(y, TradeRows(a, b, x, reserved.value, price, qty), StatusOf(y.ask), StatusOf(y.bid), true)
  }

  // -------------------------------------------------------------------------
  // The same on the tables
  // -------------------------------------------------------------------------

  function SummaryOf(m: Models, userId: nat, stockId: nat): Option<Summary> {
    if (userId, stockId) in m.summaries then Some(m.summaries[(userId, stockId)]) else None
  }

  function DepositOf(m: Models, id: OrderId): Option<int> {
    if id in m.deposits then Some(m.deposits[id]) else None
  }

  function PartiesOf(m: Models, a: Order, b: Order): Parties
    requires a.userId in m.users && b.userId in m.users
  {
    Parties(ProgressOf(m, a.id), ProgressOf(m, b.id), m.users[a.userId], m.users[b.userId],
            SummaryOf(m, a.userId, a.stockId), SummaryOf(m, b.userId, b.stockId), EntryOf(m, b.id))
  }

  function PutSummary(s: map<(nat, nat), Summary>, userId: nat, stockId: nat, v: Option<Summary>): map<(nat, nat), Summary> {
    if v.Some? then s[(userId, stockId) := v.value] else s
  }

  function StockAfterTrade(m: Models, stockId: nat, price: nat, qty: nat, saved: bool): map<nat, Stocks.Stock> {
    if stockId in m.stocks then
      var s := Stocks.VolumeUpdated(m.stocks[stockId], qty);
      m.stocks[stockId := if saved then Stocks.PriceUpdated(s, price, qty) else Stocks.AverageUpdated(s, price, qty)]
    else m.stocks
  }

  /** The bid's entry in bidsMap, where it changed. */
  function PutEntry(m: Models, id: OrderId, e: Entry): map<OrderId, Entry> {
    if e == EntryOf(m, id) then m.entries else m.entries[id := e]
  }

  function Store(m: Models, a: Order, b: Order, r: FillOutcome): Models {
    var saved := if r.traded then WithRow(WithRow(m, a, r.x.ask), b, r.x.bid) else WithRow(m, b, r.x.bid);
    m.(progress := m.progress[a.id := r.x.ask][b.id := r.x.bid],
       orders := saved.orders, stored := saved.stored,
       entries := PutEntry(m, b.id, r.x.entry),
       users := m.users[a.userId := r.x.asker][b.userId := r.x.bidder],
       summaries := PutSummary(PutSummary(m.summaries, a.userId, a.stockId, r.x.askSum), b.userId, b.stockId, r.x.bidSum),
       rows := m.rows + r.rows)
  }

  /** The matcher never pairs a user with itself nor two open orders with nothing to trade; unknown
      users get no locks. */
  function Fill(m: Models, a: Order, b: Order, price: nat, qty: nat, budget: nat): (r: FillResult)
    ensures r.m.users.Keys == m.users.Keys
  {
    if a.userId !in m.users || b.userId !in m.users || a.userId == b.userId then FillResult(m, Undone, Undone, false)
    else
      var x := PartiesOf(m, a, b);
      if qty == 0 && !x.ask.isClosed && !x.bid.isClosed then FillResult(m, Undone, Undone, false)
      else FillResultOf(m, a, b, FillCore(a, b, x, DepositOf(m, b.id), price, qty, budget), price, qty, budget)
  }

  function FillResultOf(m: Models, a: Order, b: Order, r: FillOutcome, price: nat, qty: nat, budget: nat): (f: FillResult)
    requires a.userId in m.users && b.userId in m.users
    ensures f.m.users.Keys == m.users.Keys
  {
    if r.traded then
      var x, stored := PartiesOf(m, a, b), Store(m, a, b, r);
      var saved := budget > FillWrites(AskTax(x, price, qty), BidTax(x, price, qty));
      FillResult(stored.(stocks := StockAfterTrade(m, a.stockId, price, qty, saved)), r.ask, r.bid, true)
    else if r.bid == Done then FillResult(Store(m, a, b, r), r.ask, r.bid, false)
    else FillResult(m.(entries := PutEntry(m, b.id, r.x.entry)), r.ask, r.bid, false)
  }

  // -------------------------------------------------------------------------
  // Placing
  // -------------------------------------------------------------------------

  datatype OrderError = UnknownUser | MinimumPriceThreshold | OrderPriceOutOfWindow | OrderStockLimitExceeded
                      | NotEnoughCash | NotEnoughStocks | InvalidOrderId | BuyLimitExceeded | InvalidRetrievePrice
                      | OrderAlreadyClosed | DatabaseError

  datatype Result = Result(m: Models, error: Option<OrderError>)

  /** What placing reports. When a write fails the source returns the nil error of an earlier call and
      order id 0: no error, but the order is not recorded. */
  datatype Placement = Placement(m: Models, error: Option<OrderError>, recorded: bool)

  /** The object of an order whose placing was rolled back. It is in the map if its own row had been
      written; if not, it has no id yet, and o.id is the one its first save will give it. */
  function Unrecorded(m: Models, o: Order, budget: nat): Models {
    m.(progress := m.progress[o.id := Progress(0, false)],
       entries := m.entries[o.id := if budget == 0 then Missing else Shared])
  }

  const MINIMUM_ORDER_PRICE: nat := 10

  /** getOrderFeePrice: market orders are charged at the current price. */
  function OrderPrice(m: Models, o: Order): nat {
    if o.oType == Market then CurrentPrice(m, o.stockId) else o.price
  }

  /** Limit prices stay above the minimum and within 20% of the current price. */
  function PriceError(m: Models, o: Order): Option<OrderError> {
    var current := CurrentPrice(m, o.stockId);
    if o.oType != Limit then None
    else if o.price <= MINIMUM_ORDER_PRICE then Some(MinimumPriceThreshold)
    else if o.price > current * 120 / 100 || o.price < current * 80 / 100 then Some(OrderPriceOutOfWindow)
    else None
  }

  function BidError(m: Models, o: Order, fee: nat): Option<OrderError> {
    if PriceError(m, o).Some? then PriceError(m, o)
    else if o.userId !in m.users then Some(UnknownUser)
    else if o.quantity > ORDER_LIMIT || o.quantity < 1 then Some(OrderStockLimitExceeded)
    else if Signed64(m.users[o.userId].cash) - (o.quantity * OrderPrice(m, o) + fee) < MINIMUM_CASH_LIMIT then Some(NotEnoughCash)
    else None
  }

  /** The bid, two saves of the user, the fee row, the user again, the order row, its deposit, the commit. */
  const BID_WRITES: nat := 8

  /** The fee is spent, and the order's worth moves into the reserve. */
  function BidPlaced(m: Models, o: Order, fee: nat, reserve: nat): Models
    requires o.userId in m.users
  {
    var u := m.users[o.userId];
    m.(users := m.users[o.userId := u.(cash := Wrap64(u.cash - fee - reserve), reservedCash := u.reservedCash + reserve)],
       orders := m.orders + [o],
       stored := m.stored[o.id := Progress(0, false)],
       progress := m.progress[o.id := Progress(0, false)],
       entries := m.entries[o.id := Shared],
       deposits := m.deposits[o.id := reserve],
       rows := m.rows + [Row(o.userId, o.stockId, OrderFee, 0, 0, 0, 0, 0 - fee),
                         Row(o.userId, o.stockId, PlaceOrder, 0, 0, 0, reserve, 0 - reserve)])
  }

  /** PlaceBidOrder. */
  function PlaceBid(m: Models, o: Order, fee: nat, budget: nat): (r: Placement)
    ensures r.m.users.Keys == m.users.Keys
  {
    if BidError(m, o, fee).Some? then Placement(m, BidError(m, o, fee), false)
    else if budget < BID_WRITES then Placement(Unrecorded(m, o, budget), None, false)
    else Placement(BidPlaced(m, o, fee, o.quantity * OrderPrice(m, o)), None, true)
  }

  // -------------------------------------------------------------------------
  // Asks and the short-sell bank
  // -------------------------------------------------------------------------

  function StocksOf(userId: nat, stockId: nat): Transaction -> int {
    (t: Transaction) => if t.userId == userId && t.stockId == stockId then t.stockQuantity else 0
  }

  /** getSingleStockCount: unreserved stocks, from the ledger. */
  function StockCount(m: Models, userId: nat, stockId: nat): int {
    Sum(m.rows, StocksOf(userId, stockId))
  }

  function Available(m: Models, stockId: nat): int {
    if stockId in m.lendBank then m.lendBank[stockId] else 0
  }

  function LentTo(userId: nat, stockId: nat): Lend -> int {
    (l: Lend) => if !l.isSquaredOff && l.userId == userId && l.stockId == stockId then l.stockQuantity else 0
  }

  /** getUserShortSellStocks: what the user has borrowed and not given back. */
  function ActiveLends(m: Models, userId: nat, stockId: nat): int {
    Sum(m.lends, LentTo(userId, stockId))
  }

  /** The stocks to borrow so that the order can be reserved. */
  function ShortSellQty(m: Models, o: Order): int {
    var owned := StockCount(m, o.userId, o.stockId);
    if owned >= 0 then o.quantity - owned else o.quantity
  }

  /** updateShortSellBank: unsigned 32-bit addition. */
  function BankUpdated(available: int, quantity: int): int {
    (available + quantity) % TWO_32
  }

  /** Conversion of a negated uint32. */
  function Negate32(q: int): int {
    (0 - q) % TWO_32
  }

  /** saveShortSellLendTransaction: stocks move from the bank to the user, and the lend is noted. */
  function LendStocks(m: Models, userId: nat, stockId: nat, q: nat): Models {
    m.(lendBank := m.lendBank[stockId := BankUpdated(Available(m, stockId), Negate32(q))],
       rows := m.rows + [Row(userId, stockId, ShortSell, 0, q, CurrentPrice(m, stockId), 0, 0)],
       lends := m.lends + [Lend(stockId, userId, q, false)])
  }

  function AskError(m: Models, o: Order, fee: nat): Option<OrderError> {
    if PriceError(m, o).Some? then PriceError(m, o)
    else if o.userId !in m.users then Some(UnknownUser)
    else if o.quantity > ORDER_LIMIT || o.quantity < 1 then Some(OrderStockLimitExceeded)
    else
      var short := ShortSellQty(m, o);
      if short > 0 && (short > Available(m, o.stockId)
                       || ActiveLends(m, o.userId, o.stockId) + short > SHORT_SELL_BORROW_LIMIT)
      then Some(NotEnoughStocks)
      else if Signed64(m.users[o.userId].cash) - fee < MINIMUM_CASH_LIMIT then Some(NotEnoughCash)
      else None
  }

  /** The ask, the user, the fee row, the lend's three writes, the order row, its deposit, the commit. */
  function AskWrites(short: int): nat {
    6 + if short > 0 then 3 else 0
  }

  /** The fee is spent and the ask noted... */
  function AskNoted(m: Models, o: Order, fee: nat): Models
    requires o.userId in m.users
  {
    var u := m.users[o.userId];
    m.(users := m.users[o.userId := u.(cash := Wrap64(u.cash - fee))],
       orders := m.orders + [o],
       stored := m.stored[o.id := Progress(0, false)],
       progress := m.progress[o.id := Progress(0, false)],
       entries := m.entries[o.id := Shared],
       rows := m.rows + [Row(o.userId, o.stockId, OrderFee, 0, 0, 0, 0, 0 - fee)])
  }

  /** ...missing stocks are borrowed and the order's stocks reserved. */
  function AskPlaced(m: Models, o: Order, fee: nat, short: int): Models
    requires o.userId in m.users
  {
    var m1 := AskNoted(m, o, fee);
    var m2 := if short > 0 then LendStocks(m1, o.userId, o.stockId, short) else m1;
    m2.(rows := m2.rows + [Row(o.userId, o.stockId, PlaceOrder, o.quantity, 0 - o.quantity, 0, 0, 0)])
  }

  /** PlaceAskOrder. */
  function PlaceAsk(m: Models, o: Order, fee: nat, budget: nat): (r: Placement)
    ensures r.m.users.Keys == m.users.Keys
  {
    if AskError(m, o, fee).Some? then Placement(m, AskError(m, o, fee), false)
    else if budget < AskWrites(ShortSellQty(m, o)) then Placement(Unrecorded(m, o, budget), None, false)
    else Placement(AskPlaced(m, o, fee, ShortSellQty(m, o)), None, true)
  }

  /** One lend of SquareOffLends: the stocks go back from the user to the bank. */
  function SquareOff(m: Models, i: nat): Models
    requires i < |m.lends|
  {
    var l := m.lends[i];
    if l.isSquaredOff then m
    else
      m.(rows := m.rows + [Row(l.userId, l.stockId, ShortSell, 0, 0 - l.stockQuantity, CurrentPrice(m, l.stockId), 0, 0)],
         lends := m.lends[i := l.(isSquaredOff := true)],
         lendBank := m.lendBank[l.stockId := BankUpdated(Available(m, l.stockId), l.stockQuantity)])
  }

  /** The first k lends squared off. */
  function SquaredOffUpTo(m: Models, k: nat): Models
    requires k <= |m.lends|
    ensures |SquaredOffUpTo(m, k).lends| == |m.lends|
  {
    if k == 0 then m else SquareOff(SquaredOffUpTo(m, k - 1), k - 1)
  }

  // -------------------------------------------------------------------------
  // Cancelling
  // -------------------------------------------------------------------------

  /** Save the order, for a bid its user, and the row; then commit. */
  function CancelWrites(side: Side): nat {
    if side == AskSide then 3 else 4
  }

  /** The object CancelOrder works on: the one in the queue, another one, or one loaded just now. */
  function Seen(m: Models, o: Order): Progress {
    match EntryOf(m, o.id)
    case Shared => Look(m.progress, o)
    case Copy(p) => p
    case Missing => Look(m.stored, o)
  }

  function WithEntry(m: Models, id: OrderId, e: Entry): Models {
    m.(entries := m.entries[id := e])
  }

  function WithProgress(m: Models, id: OrderId, p: Progress): Models {
    m.(progress := m.progress[id := p])
  }

  /** Looking an order up leaves its object in the map. */
  function LookedUp(m: Models, o: Order): (r: Models)
    ensures r == m.(progress := r.progress, entries := r.entries)
  {
    if EntryOf(m, o.id) == Missing then WithEntry(m, o.id, Copy(Look(m.stored, o))) else m
  }

  /** That object is marked closed, which shows in the queue only if it is the same. */
  function MarkedClosed(m: Models, o: Order): (r: Models)
    ensures r == m.(progress := r.progress, entries := r.entries)
  {
    if EntryOf(m, o.id) == Shared then WithProgress(m, o.id, Look(m.progress, o).(isClosed := true))
    else WithEntry(m, o.id, Copy(Seen(m, o).(isClosed := true)))
  }

  /** A saved closing takes the object out of the map. */
  function TakenOut(m: Models, o: Order): (r: Models)
    ensures r == m.(progress := r.progress, entries := r.entries)
  {
    WithEntry(m, o.id, Missing)
  }

  /** What was reserved goes back to the user. */
  function Released(m: Models, o: Order, p: Progress): (r: Models)
    requires o.userId in m.users && (o.id.side == BidSide ==> o.id in m.deposits)
    ensures r.users.Keys == m.users.Keys
    ensures r == m.(orders := r.orders, stored := r.stored, users := r.users, rows := r.rows)
  {
    var m1 := WithRow(m, o, p.(isClosed := true));
    if o.id.side == AskSide then
      var u := Unfulfilled(o, p);
      m1.(rows := m.rows + [Row(o.userId, o.stockId, CancelOrder, 0 - u, u, 0, 0, 0)])
    else
      var refund := Refund(o, p, m.deposits[o.id]);
      m1.(users := m.users[o.userId := Refunded(m.users[o.userId], refund)], rows := m.rows + [RefundRow(o, refund)])
  }

  /** Closing an open order. A failing first write leaves the closed object in the map, a later one
      takes it out; in both cases the tables are as before. */
  function CancelOpen(m: Models, o: Order, budget: nat): (r: Result)
    requires o.userId in m.users
    ensures r.m.users.Keys == m.users.Keys
  {
    var m1 := MarkedClosed(m, o);
    if budget == 0 then Result(m1, Some(DatabaseError))
    else if o.id.side == BidSide && o.id !in m.deposits then Result(TakenOut(m1, o), Some(InvalidOrderId))
    else if budget < CancelWrites(o.id.side) then Result(TakenOut(m1, o), Some(DatabaseError))
    else Result(Released(TakenOut(m1, o), o, Seen(m, o)), None)
  }

  /** What getAsk and getBid find under the order's id: its row, or else an object in the map. */
  predicate Findable(m: Models, o: Order) {
    o in m.orders || (o.id !in m.stored && EntryOf(m, o.id) != Missing)
  }

  /** CancelOrder. */
  function Cancel(m: Models, userId: nat, o: Order, budget: nat): (r: Result)
    ensures r.m.users.Keys == m.users.Keys
  {
    if userId !in m.users then Result(m, Some(UnknownUser))
    else if !Findable(m, o) then Result(m, Some(InvalidOrderId))
    else if o.userId != userId then Result(LookedUp(m, o), Some(InvalidOrderId))
    else if Seen(m, o).isClosed then Result(LookedUp(m, o), Some(OrderAlreadyClosed))
    else CancelOpen(m, o, budget)
  }

  // -------------------------------------------------------------------------
  // Buying from the exchange and mortgaging
  // -------------------------------------------------------------------------

  function BoughtQty(m: Models, stockId: nat, qty: nat): nat {
    if stockId !in m.stocks then 0 else Min(qty, m.stocks[stockId].stocksInExchange)
  }

  /** The summary, the row, the tax row, the user, the stock, the commit. */
  function BuyWrites(tax: nat): nat {
    5 + if tax == 0 then 0 else 1
  }

  /** q stocks move from the exchange to the user, who pays for them and the tax. */
  function ExchangeBought(m: Models, userId: nat, stockId: nat, q: nat): Models
    requires userId in m.users && stockId in m.stocks && 0 < q <= m.stocks[stockId].stocksInExchange
  {
    var s, u, sum := m.stocks[stockId], m.users[userId], SummaryOf(m, userId, stockId);
    var price := s.currentPrice;
    var tax := BuyTax(sum, q, price, u.total);
    m.(users := m.users[userId := u.(cash := Wrap64(u.cash - price * q - tax))],
       summaries := m.summaries[(userId, stockId) := Bought(sum, q, price)],
       stocks := m.stocks[stockId := s.(stocksInExchange := s.stocksInExchange - q, stocksInMarket := s.stocksInMarket + q)],
       rows := m.rows + [Row(userId, stockId, FromExchange, 0, q, price, 0, 0 - price * q)]
               + TaxRows(userId, stockId, tax))
  }

  /** PerformBuyFromExchangeTransaction. */
  function BuyFromExchange(m: Models, userId: nat, stockId: nat, qty: nat, budget: nat): (r: Result)
    ensures r.m.users.Keys == m.users.Keys
  {
    if qty > BUY_LIMIT then Result(m, Some(BuyLimitExceeded))
    else if userId !in m.users then Result(m, Some(UnknownUser))
    else
      var q := BoughtQty(m, stockId, qty);
      if q == 0 then Result(m, Some(NotEnoughStocks))
      else
        var s, u := m.stocks[stockId], m.users[userId];
        var price := s.currentPrice;
        if price * q > u.cash then Result(m, Some(NotEnoughCash))
        else
          var sum := SummaryOf(m, userId, stockId);
          if budget < BuyWrites(BuyTax(sum, q, price, u.total)) then Result(m, Some(DatabaseError))
          else Result(ExchangeBought(m, userId, stockId, q), None)
  }

  const MORTGAGE_RETRIEVE_RATE: nat := 90
  const MORTGAGE_DEPOSIT_RATE: nat := 80

  /** Integer division that truncates toward zero. */
  function TruncDiv(a: int, b: int): int
    requires b > 0
  {
    if a >= 0 then a / b else 0 - (0 - a) / b
  }

  function InBank(m: Models, k: MortgageKey): int {
    if k in m.mortgages then m.mortgages[k] else 0
  }

  /** What a deposit pays out, and what a retrieval costs (as a negative amount). */
  function DepositAmount(price: nat, qty: nat): int {
    TruncDiv(price * qty * MORTGAGE_DEPOSIT_RATE, 100)
  }

  function RetrieveAmount(price: nat, qty: nat): int {
    TruncDiv((0 - price) * qty * MORTGAGE_RETRIEVE_RATE, 100)
  }

  /** Mortgaging: qty stocks go into the bank at the current price. */
  function Deposit(m: Models, userId: nat, stockId: nat, qty: nat): (r: Result)
    ensures r.m.users.Keys == m.users.Keys
  {
    var price := CurrentPrice(m, stockId);
    var k := MortgageKey(userId, stockId, price);
    if userId !in m.users then Result(m, Some(UnknownUser))
    else if qty > StockCount(m, userId, stockId) then Result(m, Some(NotEnoughStocks))
    else
      var u := m.users[userId];
      Result(m.(users := m.users[userId := u.(cash := Wrap64(u.cash + DepositAmount(price, qty)))],
                mortgages := m.mortgages[k := InBank(m, k) + qty],
                rows := m.rows + [Row(userId, stockId, Mortgage, 0, 0 - qty, price, 0, DepositAmount(price, qty))]), None)
  }

  /** Retrieving: stocks mortgaged at retrievePrice come back. */
  function Retrieve(m: Models, userId: nat, stockId: nat, qty: nat, retrievePrice: nat): (r: Result)
    ensures r.m.users.Keys == m.users.Keys
  {
    var k := MortgageKey(userId, stockId, retrievePrice);
    if userId !in m.users then Result(m, Some(UnknownUser))
    else if k !in m.mortgages then Result(m, Some(InvalidRetrievePrice))
    else if Signed64(m.users[userId].cash) < qty * retrievePrice then Result(m, Some(NotEnoughCash))
    else if qty > m.mortgages[k] then Result(m, Some(NotEnoughStocks))
    else
      var u := m.users[userId];
      Result(m.(users := m.users[userId := u.(cash := Wrap64(u.cash + RetrieveAmount(retrievePrice, qty)))],
                mortgages := if qty == m.mortgages[k] then m.mortgages - {k} else m.mortgages[k := m.mortgages[k] - qty],
                rows := m.rows + [Row(userId, stockId, Mortgage, 0, qty, retrievePrice, 0, RetrieveAmount(retrievePrice, qty))]),
             None)
  }

  /** The mortgage row, the transaction, the user, the commit. */
  const MORTGAGE_WRITES: nat := 4

  /** PerformMortgageTransaction: negative quantities are mortgaged, the others retrieved. */
  function PerformMortgage(m: Models, userId: nat, stockId: nat, stockQuantity: int, retrievePrice: nat, budget: nat): (r: Result)
    ensures r.m.users.Keys == m.users.Keys
  {
    var r := if stockQuantity >= 0 then Retrieve(m, userId, stockId, stockQuantity, retrievePrice)
             else Deposit(m, userId, stockId, 0 - stockQuantity);
    if r.error.Some? || budget >= MORTGAGE_WRITES then r else Result(m, Some(DatabaseError))
  }

  // -------------------------------------------------------------------------
  // Runs
  // -------------------------------------------------------------------------

  /** budget: how many of the step's database writes succeed. */
  datatype Op =
    | PlaceBidOp(o: Order, fee: nat, budget: nat)
    | PlaceAskOp(o: Order, fee: nat, budget: nat)
    | FillOp(ask: Order, bid: Order, price: nat, qty: nat, budget: nat)
    | CancelOp(userId: nat, o: Order, budget: nat)
    | BuyOp(userId: nat, stockId: nat, qty: nat, budget: nat)
    | MortgageOp(userId: nat, stockId: nat, stockQuantity: int, retrievePrice: nat, budget: nat)
    | SquareOffOp(lend: nat)
    | WakeOp(o: Order, budget: nat)

  function Do(m: Models, op: Op): (r: Models)
    ensures r.users.Keys == m.users.Keys
  {
    match op
    case PlaceBidOp(o, fee, budget) => PlaceBid(m, o, fee, budget).m
    case PlaceAskOp(o, fee, budget) => PlaceAsk(m, o, fee, budget).m
    case FillOp(a, b, price, qty, budget) => Fill(m, a, b, price, qty, budget).m
    case CancelOp(u, o, budget) => Cancel(m, u, o, budget).m
    case BuyOp(u, s, qty, budget) => BuyFromExchange(m, u, s, qty, budget).m
    case MortgageOp(u, s, qty, price, budget) => PerformMortgage(m, u, s, qty, price, budget).m
    case SquareOffOp(i) => if i < |m.lends| then SquareOff(m, i) else m
    case WakeOp(o, budget) => Wake(m, o, budget > 0)
  }

  function RunOps(m: Models, ops: seq<Op>): (r: Models)
    ensures r.users.Keys == m.users.Keys
    decreases |ops|
  {
    if ops == [] then m else RunOps(Do(m, ops[0]), ops[1..])
  }
}
