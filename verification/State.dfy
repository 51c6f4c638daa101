/** The rows of the models package that order handling reads and writes. */
module State {
  import opened Orders
  import opened Stocks

  datatype User = User(cash: int, reservedCash: int, total: int)

  /** Net position in one stock and its cost basis (models/TransactionSummary.go). */
  datatype Summary = Summary(quantity: int, price: real)

  datatype Kind = FromExchange | OrderFill | Mortgage | OrderFee | Tax | PlaceOrder | CancelOrder | ShortSell

  datatype Transaction = Transaction(userId: nat, stockId: nat, kind: Kind,
                                     reservedStockQuantity: int, stockQuantity: int, price: nat,
                                     reservedCashTotal: int, total: int)

  datatype Lend = Lend(stockId: nat, userId: nat, stockQuantity: nat, isSquaredOff: bool)

  datatype MortgageKey = MortgageKey(userId: nat, stockId: nat, price: nat)

  type ProgressMap = map<OrderId, Progress>

  function Look(pm: ProgressMap, o: Order): Progress {
    if o.id in pm then pm[o.id] else Progress(0, false)
  }

  /** Never filled beyond its quantity, and open only while something is left to fill. */
  ghost predicate WellFilled(o: Order, pm: ProgressMap) {
    var p := Look(pm, o);
    p.fulfilled <= o.quantity && (!p.isClosed ==> p.fulfilled < o.quantity)
  }

  /** What asksMap and bidsMap hold for an order: nothing, the object that is also in the queue, or
      another object, loaded from the tables at some time. */
  datatype Entry = Missing | Shared | Copy(copy: Progress)

  /** users: accounts; orders and stored: the Asks and Bids tables; progress: the order objects that
      are in the queues; entries: asksMap and bidsMap; deposits: cash reserved when a bid was placed;
      rows: the Transactions table. */
  datatype Models = Models(
    users: map<nat, User>,
    orders: seq<Order>,
    stored: ProgressMap,
    progress: ProgressMap,
    entries: map<OrderId, Entry>,
    deposits: map<OrderId, int>,
    summaries: map<(nat, nat), Summary>,
    rows: seq<Transaction>,
    stocks: map<nat, Stock>,
    lendBank: map<nat, int>,
    lends: seq<Lend>,
    mortgages: map<MortgageKey, int>)

  function ProgressOf(m: Models, id: OrderId): Progress {
    if id in m.progress then m.progress[id] else Progress(0, false)
  }

  function EntryOf(m: Models, id: OrderId): Entry {
    if id in m.entries then m.entries[id] else Missing
  }

  /** Saving an order's object writes over its row, and inserts a row where there is none. */
  function WithRow(m: Models, o: Order, p: Progress): Models {
    m.(orders := if o.id in m.stored then m.orders else m.orders + [o], stored := m.stored[o.id := p])
  }

  /** TriggerStoploss saves the object in the queue; saved: whether that succeeds. Rows keep orders as
      they were placed. */
  function Wake(m: Models, o: Order, saved: bool): Models {
    if saved then WithRow(m, o, Look(m.progress, o)) else m
  }

  function CurrentPrice(m: Models, stockId: nat): nat {
    if stockId in m.stocks then m.stocks[stockId].currentPrice else 0
  }

  // -------------------------------------------------------------------------
  // What filling an order reports to the matching engine
  // -------------------------------------------------------------------------

  datatype FillStatus = AlreadyClosed | Done | Undone

  /** An order's progress after qty more of it has been filled. */
  function FilledBy(o: Order, p: Progress, qty: nat): Progress {
    Progress(p.fulfilled + qty, o.quantity == p.fulfilled + qty)
  }

  function StatusOf(p: Progress): FillStatus {
    if p.isClosed then Done else Undone
  }

  datatype FillResult = FillResult(m: Models, ask: FillStatus, bid: FillStatus, traded: bool)

  /** fillOrderFn: ask, bid, trade price and trade quantity. */
  type FillFn = (Models, Order, Order, nat, nat) -> FillResult

  /** What the accounts do for the matching engine: fill orders, and save a stop-loss that is woken, which
      may fail. */
  datatype Desk = Desk(fill: FillFn, saves: (Models, Order) -> bool)
}
