/** Orders, the two ranking comparators and the terms of a match
    (matchingengine/helpers.go, matchingengine/pqueue.go, models/Ask.go, models/Bid.go).

    The source has twin structs Ask and Bid; here they are one Order whose id carries the side.
    Order holds the fields no one writes while the order is queued; the two fields that trades
    and cancellations write, StockQuantityFulfilled and IsClosed, are its Progress. */
module Orders {
  import opened Words

  datatype OrderType = Limit | Market | StopLoss | StopLossActive

  datatype Side = AskSide | BidSide

  datatype OrderId = OrderId(side: Side, num: nat)

  datatype Order = Order(id: OrderId, userId: nat, stockId: nat, oType: OrderType,
                         price: nat, quantity: nat, placedAt: nat)

  datatype Progress = Progress(fulfilled: nat, isClosed: bool)

  datatype PQType = MAXPQ | MINPQ

  predicate IsMarket(t: OrderType) {
    t == Market || t == StopLossActive
  }

  predicate IsOrderMatching(ask: Order, bid: Order) {
    IsMarket(bid.oType) || IsMarket(ask.oType) || bid.price >= ask.price
  }

  /** IsOrderMatching between an order o and a counter-order c from the queue of side s. */
  predicate MatchesIn(s: Side, o: Order, c: Order) {
    if s == AskSide then IsOrderMatching(c, o) else IsOrderMatching(o, c)
  }

  predicate Matches(o: Order, c: Order) {
    MatchesIn(Opposite(o.id.side), o, c)
  }

  function Unfulfilled(o: Order, p: Progress): nat {
    Sub64(o.quantity, p.fulfilled)
  }

  function TradeQty(ask: Order, ap: Progress, bid: Order, bp: Progress): nat {
    Min(Unfulfilled(ask, ap), Unfulfilled(bid, bp))
  }

  function TradePrice(ask: Order, bid: Order, currentPrice: nat): nat {
    if IsMarket(ask.oType) && IsMarket(bid.oType) then currentPrice
    else if IsMarket(ask.oType) then bid.price
    else if IsMarket(bid.oType) then ask.price
    else if ask.placedAt < bid.placedAt then ask.price
    else bid.price
  }

  /** What TriggerStoploss does to the order: only a dormant stop-loss changes type. */
  function Triggered(o: Order): Order {
    if o.oType == StopLoss then o.(oType := StopLossActive) else o
  }

  /** Between limit orders the older one's price counts, and the bid's if they are of one age; against an order
      at market the limit order's; between two of those the stock's current price. */
  lemma TradePriceIs(ask: Order, bid: Order, currentPrice: nat)
    ensures var p := TradePrice(ask, bid, currentPrice);
            var askAtMarket := ask.oType == Market || ask.oType == StopLossActive;
            var bidAtMarket := bid.oType == Market || bid.oType == StopLossActive;
            && (!askAtMarket && !bidAtMarket && ask.placedAt < bid.placedAt ==> p == ask.price)
            && (!askAtMarket && !bidAtMarket && bid.placedAt <= ask.placedAt ==> p == bid.price)
            && (askAtMarket && !bidAtMarket ==> p == bid.price)
            && (bidAtMarket && !askAtMarket ==> p == ask.price)
            && (askAtMarket && bidAtMarket ==> p == currentPrice)
  {
  }

  // -------------------------------------------------------------------------
  // Ranking: comparator(a, b) says that a ranks strictly below b
  // -------------------------------------------------------------------------

  predicate BidComparator(a: Order, b: Order) {
    if IsMarket(a.oType) && IsMarket(b.oType) then b.placedAt < a.placedAt
    else if IsMarket(a.oType) then false
    else if IsMarket(b.oType) then true
    else if a.price == b.price then b.quantity > a.quantity
    else a.price < b.price
  }

  predicate AskComparator(a: Order, b: Order) {
    if IsMarket(a.oType) && IsMarket(b.oType) then b.placedAt < a.placedAt
    else if IsMarket(a.oType) then false
    else if IsMarket(b.oType) then true
    else if a.price == b.price then b.quantity > a.quantity
    else a.price > b.price
  }

  predicate Less(t: PQType, a: Order, b: Order) {
    if t == MAXPQ then BidComparator(a, b) else AskComparator(a, b)
  }

  /** Both comparators are strict weak orders: irreflexive, transitive, and "neither ranks
      below the other" is transitive. */
  lemma LessIsStrictWeakOrder(t: PQType, a: Order, b: Order, c: Order)
    ensures !Less(t, a, a)
    ensures Less(t, a, b) ==> !Less(t, b, a)
    ensures Less(t, a, b) && Less(t, b, c) ==> Less(t, a, c)
    ensures !Less(t, a, b) && !Less(t, b, c) ==> !Less(t, a, c)
  {
  }

  /** If the best-ranked live counter-order does not match, nothing ranked no higher does. */
  lemma BestDecidesMatch(o: Order, best: Order, c: Order)
    requires best.id.side != o.id.side && c.id.side != o.id.side
    requires !Less(LiveType(best.id.side), best, c)
    requires !Matches(o, best)
    ensures !Matches(o, c)
  {
  }

  /** Asks rank lower prices first, bids higher prices first. */
  function LiveType(s: Side): PQType {
    if s == AskSide then MINPQ else MAXPQ
  }

  /** Stop-loss queues run the other way round. */
  function StopType(s: Side): PQType {
    if s == AskSide then MAXPQ else MINPQ
  }

  function Opposite(s: Side): Side {
    if s == AskSide then BidSide else AskSide
  }

  /** A limit seller never trades below its price, a limit buyer never above; nothing is filled
      beyond either order's quantity, and the trade leaves one of the two with nothing to fill. */
  lemma LimitProtection(ask: Order, ap: Progress, bid: Order, bp: Progress, currentPrice: nat)
    requires IsOrderMatching(ask, bid)
    requires ap.fulfilled < ask.quantity && bp.fulfilled < bid.quantity
    ensures !IsMarket(ask.oType) ==> TradePrice(ask, bid, currentPrice) >= ask.price
    ensures !IsMarket(bid.oType) ==> TradePrice(ask, bid, currentPrice) <= bid.price
    ensures var q := TradeQty(ask, ap, bid, bp);
            && 0 < q
            && ap.fulfilled + q <= ask.quantity
            && bp.fulfilled + q <= bid.quantity
            && (ap.fulfilled + q == ask.quantity || bp.fulfilled + q == bid.quantity)
  {
  }
}
