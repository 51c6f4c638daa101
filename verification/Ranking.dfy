/** Who comes first, in the orders' own fields: time among market orders, price and then quantity among
    limit orders. */
module Ranking {
  import opened Orders
  import opened State
  import opened Matching
  import opened BookTheorems
  import opened NoOrderLost
  import Heap

  /** The types that trade at any price. */
  predicate AtMarket(o: Order) {
    o.oType == Market || o.oType == StopLossActive
  }

  /** a may come before b: a market order before all others, the older of two; and of two others the one
      with the better price, and at the same price the larger. A bid's better price is the higher. */
  ghost predicate MayPrecede(highFirst: bool, a: Order, b: Order) {
    if AtMarket(a) then AtMarket(b) ==> a.placedAt <= b.placedAt
    else
      && !AtMarket(b)
      && (if highFirst then a.price >= b.price else a.price <= b.price)
      && (a.price == b.price ==> a.quantity >= b.quantity)
  }

  /** The order in which a queue gives up its orders: a MAXPQ by falling price, a MINPQ by rising price. */
  lemma DrainRanks(t: PQType, s: seq<Order>)
    requires Heap.IsHeap(t, s)
    ensures var d := Heap.Drain(t, s);
            && multiset(d) == multiset(s)
            && forall i, j :: 0 <= i < j < |d| ==> MayPrecede(t == MAXPQ, d[i], d[j])
  {
    Heap.DrainSorts(t, s);
    var d := Heap.Drain(t, s);
    forall i, j | 0 <= i < j < |d| ensures MayPrecede(t == MAXPQ, d[i], d[j]) {
      assert !Less(t, d[i], d[j]);
    }
  }

  /** After a push the head is the new order exactly if it beats the old head. */
  lemma PushRanks(t: PQType, s: seq<Order>, o: Order)
    requires Heap.IsHeap(t, s) && s != []
    ensures Heap.Push(t, s, o)[0] == if MayPrecede(t == MAXPQ, s[0], o) then s[0] else o
  {
    Heap.HeadSurvivesIff(t, s, [o]);
    if Less(t, s[0], o) {
      Heap.PushTakesHead(t, s, o);
    } else {
      assert Heap.PushAll(t, s, [o]) == Heap.Push(t, s, o) by { assert [o][1..] == []; }
    }
    hide Heap.IsHeap, Heap.Push;
  }

  /** The counter-order traded with comes before every other user's order: an incoming ask gets the highest
      bid, an incoming bid the lowest ask, market orders by age before them. */
  lemma BestCounterRanks(b: Book, o: Order, c: Order)
    requires Valid(b) && HasMatch(b, o)
    requires c in b.Live(Opposite(o.id.side)) && c.userId != o.userId
    ensures MayPrecede(o.id.side == AskSide, TopMatch(b, o).0.value, c)
    ensures var top := TopMatch(b, o).0.value;
            AtMarket(o) || AtMarket(top)
            || (if o.id.side == AskSide then top.price >= o.price else top.price <= o.price)
  {
    TopMatchCorrect(b, o);
    hide TopMatch;
  }

  /** If there is none, every other user's order is a limit order beyond the limit of a limit order. */
  lemma NoCounterMeans(b: Book, o: Order, c: Order)
    requires Valid(b) && !HasMatch(b, o)
    requires c in b.Live(Opposite(o.id.side)) && c.userId != o.userId
    ensures !AtMarket(o) && !AtMarket(c) && (if o.id.side == AskSide then c.price < o.price else o.price < c.price)
  {
    TopMatchCorrect(b, o);
    hide TopMatch;
  }

  // -------------------------------------------------------------------------
  // When stop-losses wake
  // -------------------------------------------------------------------------

  /** A trade at a price wakes the stops to sell set at it or above, and the stops to buy set at it or below. */
  ghost predicate WakesAt(s: Side, x: Order, price: nat) {
    if s == AskSide then x.price >= price else x.price <= price
  }

  lemma WakesByPrice(s: Side, h: Half, price: nat, x: Order)
    requires ValidHalf(s, h) && x in h.stops
    ensures x in TriggerHalf(s, h, price).stops <==> !WakesAt(s, x, price)
    ensures WakesAt(s, x, price) ==> x.(oType := StopLossActive) in TriggerHalf(s, h, price).live
  {
    TriggerExact(s, h, price);
    hide TriggerHalf;
  }

  /** A new stop-loss waits while the stock's current price has not reached its own: one to sell while that is
      above, one to buy while that is below. */
  lemma NewStopWaits(b: Book, o: Order, f: Desk)
    requires Valid(b) && o.oType == StopLoss && o.stockId in b.m.stocks && o !in b.Of(o.id.side).stops
    ensures o in AddNew(b, o, f).Of(o.id.side).stops
            <==> if o.id.side == AskSide then b.m.stocks[o.stockId].currentPrice > o.price
                 else b.m.stocks[o.stockId].currentPrice < o.price
  {
    hide Valid, AddNew;
    StopWaitsIff(b, o, f);
  }
}
