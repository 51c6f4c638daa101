/** The order book object of matchingengine/OrderBook.go, its loops proved equal to module Matching.
    Methods the source writes twice, for asks and for bids, are written once by side. */
module OrderBooks {
  import opened Orders
  import opened Wrappers
  import opened State
  import opened Depths
  import opened PQueue
  import opened Matching
  import Heap

  class OrderBook {
    const asks: OrderQueue
    const bids: OrderQueue
    const askStoploss: OrderQueue
    const bidStoploss: OrderQueue
    const depth: MarketDepthStream
    const fillOrderFn: Desk
    var models: Models

    function Queue(s: Side): OrderQueue { if s == AskSide then asks else bids }

    function Stoploss(s: Side): OrderQueue { if s == AskSide then askStoploss else bidStoploss }

    ghost function View(): Book
      reads this, asks, bids, askStoploss, bidStoploss, depth
    {
      Book(Half(asks.items, askStoploss.items), Half(bids.items, bidStoploss.items), depth.View(), models)
    }

    ghost predicate Shape()
      reads asks, bids, askStoploss, bidStoploss
    {
      && asks != bids && asks != askStoploss && asks != bidStoploss
      && bids != askStoploss && bids != bidStoploss && askStoploss != bidStoploss
      && asks.comparator == LiveType(AskSide) && bids.comparator == LiveType(BidSide)
      && askStoploss.comparator == StopType(AskSide) && bidStoploss.comparator == StopType(BidSide)
      && asks.Valid() && bids.Valid() && askStoploss.Valid() && bidStoploss.Valid()
    }

    constructor (fill: Desk, m: Models)
      ensures Shape() && fillOrderFn == fill
      ensures View() == Book(Half([], []), Half([], []), Depth(Level(map[], map[]), Level(map[], map[]), [], []), m)
      ensures fresh(asks) && fresh(bids) && fresh(askStoploss) && fresh(bidStoploss) && fresh(depth)
    {
      asks := new OrderQueue(MINPQ);
      bids := new OrderQueue(MAXPQ);
      askStoploss := new OrderQueue(MAXPQ);
      bidStoploss := new OrderQueue(MINPQ);
      depth := new MarketDepthStream();
      fillOrderFn := fill;
      models := m;
    }

    method AddOrderToDepth(o: Order)
      requires Shape()
      modifies depth
      ensures View() == AddToDepth(old(View()), o)
    {
      var unfulfilled := Unfulfilled(o, ProgressOf(models, o.id));
      depth.AddOrder(IsMarket(o.oType), o.id.side.AskSide?, o.price, unfulfilled);
    }

    method CloseOrderInDepth(o: Order, qty: nat)
      requires Shape()
      modifies depth
      ensures View() == CloseDepth(old(View()), o, qty)
    {
      depth.CloseOrder(IsMarket(o.oType), o.id.side.AskSide?, o.price, qty);
    }

    /** TriggerStoploss: the woken order is saved, which may fail. */
    method SaveWoken(o: Order)
      modifies this`models
      ensures models == Wake(old(models), o, fillOrderFn.saves(old(models), o))
    {
      if fillOrderFn.saves(models, o) {
        models := WithRow(models, o, Look(models.progress, o));
      }
    }

    method AddOrder(o: Order)
      requires Shape()
      modifies this`models, asks, bids, askStoploss, bidStoploss, depth
      ensures Shape() && View() == AddNew(old(View()), o, fillOrderFn)
    {
      if o.oType == StopLoss {
        var currentPrice := CurrentPrice(models, o.stockId);
        if (o.id.side.AskSide? && currentPrice <= o.price) || (o.id.side.BidSide? && currentPrice >= o.price) {
          SaveWoken(o);
          ProcessOrder(Triggered(o));
        } else {
          Stoploss(o.id.side).Push(o);
        }
        return;
      }
      ProcessOrder(o);
    }

    method CancelOrder(o: Order)
      requires Shape()
      modifies depth
      ensures Shape() && View() == CancelInBook(old(View()), o)
    {
      if o.oType == StopLoss {
        return;
      }
      CloseOrderInDepth(o, Unfulfilled(o, ProgressOf(models, o.id)));
    }

    method AddBackOrders(s: Side, orders: seq<Order>)
      requires Shape()
      modifies Queue(s)
      ensures Shape()
      ensures View() == old(View()).SetLive(s, Heap.PushAll(LiveType(s), old(Queue(s).items), orders))
    {
      var q, i := Queue(s), 0;
      while i < |orders|
        invariant 0 <= i <= |orders| && Shape()
        invariant Heap.PushAll(LiveType(s), q.items, orders[i..]) == Heap.PushAll(LiveType(s), old(q.items), orders)
      {
        assert orders[i..][0] == orders[i] && orders[i..][1..] == orders[i + 1..];
        q.Push(orders[i]);
        i := i + 1;
      }
      assert orders[i..] == [];
    }

    /** Pop the user's own orders off the top of q and remember them. */
    static method HoldBackOwn(q: OrderQueue, userId: nat) returns (top: Option<Order>, sameUser: seq<Order>)
      requires q.Valid()
      modifies q
      ensures q.Valid() && (sameUser, q.items) == SkipOwn(q.comparator, old(q.items), userId)
      ensures top == if q.items == [] then None else Some(q.items[0])
    {
      hide Heap.Pop, Heap.IsHeap, Less;
      ghost var (own, rest) := SkipOwn(q.comparator, q.items, userId);
      top := q.Head();
      sameUser := [];
      while top.Some? && top.value.userId == userId
        invariant q.Valid() && top == if q.items == [] then None else Some(q.items[0])
        invariant var (own', rest') := SkipOwn(q.comparator, q.items, userId);
                  sameUser + own' == own && rest' == rest
        decreases |q.items|
      {
        ghost var tail := SkipOwn(q.comparator, Heap.Pop(q.comparator, q.items), userId).0;
        assert sameUser + ([top.value] + tail) == (sameUser + [top.value]) + tail;
        var popped := q.Pop();
        sameUser := sameUser + [popped.value];
        top := q.Head();
      }
      assert sameUser + [] == sameUser;
    }

    /** The counter-order stays in the queue; the user's own better-ranked orders are held back in
        sameUser until the caller puts them back. */
    method GetTopMatching(s: Side, o: Order) returns (top: Option<Order>, sameUser: seq<Order>)
      requires Shape()
      modifies Queue(s)
      ensures Shape()
      ensures var (t, own, rest) := TopIn(old(View()), s, o);
              && top == t
              && (t.Some? ==> sameUser == own && View() == old(View()).SetLive(s, rest))
              && (t.None? ==> sameUser == []
                              && View() == old(View()).SetLive(s, Heap.PushAll(LiveType(s), rest, own)))
    {
      top, sameUser := HoldBackOwn(Queue(s), o.userId);
      if top == None || !MatchesIn(s, o, top.value) {
        AddBackOrders(s, sameUser);
        return None, [];
      }
    }

    /** The top stop-loss leaves its queue, is saved, and joins the live queue and the depth. */
    method WakeTop(s: Side)
      requires Shape() && Stoploss(s).items != []
      modifies Queue(s), Stoploss(s), depth, this`models
      ensures Shape()
      ensures var q, stops, x := old(Queue(s).items), old(Stoploss(s).items), old(Stoploss(s).items)[0];
              && Queue(s).items == Heap.Push(LiveType(s), q, Triggered(x)) && Stoploss(s).items == Heap.Pop(StopType(s), stops)
              && depth.View() == Added(old(depth.View()), true, s, x.price, x.quantity)
              && models == Wake(old(models), x, fillOrderFn.saves(old(models), x))
    {
      hide Heap.Push, Heap.Pop, Heap.IsHeap, Wake;
      var top := Stoploss(s).Pop();
      SaveWoken(top.value);
      Queue(s).Push(Triggered(top.value));
      depth.AddOrder(true, s.AskSide?, top.value.price, top.value.quantity);
    }

    /** One of the two loops of triggerStopLosses, by side. */
    method TriggerSide(s: Side, price: nat)
      requires Shape()
      modifies Queue(s), Stoploss(s), depth, this`models
      ensures Shape()
      ensures View() == old(View()).With(s, TriggerHalf(s, old(View()).Of(s), price))
                                   .(depth := AddStops(old(depth.View()), s,
                                                       Woken(StopType(s), old(Stoploss(s).items), price).0),
                                     m := WakeAll(old(models), Woken(StopType(s), old(Stoploss(s).items), price).0, fillOrderFn))
    {
      hide TriggerHalf, AddStops, WakeAll, Wake, Heap.Push, Heap.Pop, Heap.IsHeap;
      var q, stops := Queue(s), Stoploss(s);
      var top := stops.Head();
      ghost var h0, d0, m0 := View().Of(s), depth.View(), models;
      while top.Some? && ShouldTrigger(price, top.value)
        invariant Shape() && top == if stops.items == [] then None else Some(stops.items[0])
        invariant TriggerHalf(s, Half(q.items, stops.items), price) == TriggerHalf(s, h0, price)
        invariant AddStops(depth.View(), s, Woken(StopType(s), stops.items, price).0)
                  == AddStops(d0, s, Woken(StopType(s), h0.stops, price).0)
        invariant WakeAll(models, Woken(StopType(s), stops.items, price).0, fillOrderFn)
                  == WakeAll(m0, Woken(StopType(s), h0.stops, price).0, fillOrderFn)
        decreases |stops.items|
      {
        WakeStep(s, q.items, stops.items, depth.View(), price);
        SaveStep(s, stops.items, models, price, fillOrderFn);
        WakeTop(s);
        top := stops.Head();
      }
      WakeDone(s, q.items, stops.items, depth.View(), price);
      SaveDone(s, stops.items, models, price, fillOrderFn);
    }

    static lemma SaveDone(s: Side, stops: seq<Order>, m: Models, price: nat, f: Desk)
      requires stops == [] || !ShouldTrigger(price, stops[0])
      ensures WakeAll(m, Woken(StopType(s), stops, price).0, f) == m
    {
    }

    static lemma SaveStep(s: Side, stops: seq<Order>, m: Models, price: nat, f: Desk)
      requires stops != [] && ShouldTrigger(price, stops[0])
      ensures WakeAll(m, Woken(StopType(s), stops, price).0, f)
              == WakeAll(Wake(m, stops[0], f.saves(m, stops[0])), Woken(StopType(s), Heap.Pop(StopType(s), stops), price).0, f)
    {
      hide Wake;
      var w := Woken(StopType(s), Heap.Pop(StopType(s), stops), price).0;
      assert ([stops[0]] + w)[1..] == w;
    }

    static lemma WakeDone(s: Side, live: seq<Order>, stops: seq<Order>, d: Depth, price: nat)
      requires stops == [] || !ShouldTrigger(price, stops[0])
      ensures TriggerHalf(s, Half(live, stops), price) == Half(live, stops)
      ensures AddStops(d, s, Woken(StopType(s), stops, price).0) == d
    {
    }

    static lemma WakeStep(s: Side, live: seq<Order>, stops: seq<Order>, d: Depth, price: nat)
      requires stops != [] && ShouldTrigger(price, stops[0])
      ensures TriggerHalf(s, Half(live, stops), price)
              == TriggerHalf(s, Half(Heap.Push(LiveType(s), live, Triggered(stops[0])),
                                     Heap.Pop(StopType(s), stops)), price)
      ensures AddStops(d, s, Woken(StopType(s), stops, price).0)
              == AddStops(Added(d, true, s, stops[0].price, stops[0].quantity), s,
                          Woken(StopType(s), Heap.Pop(StopType(s), stops), price).0)
    {
      var w := Woken(StopType(s), Heap.Pop(StopType(s), stops), price).0;
      assert ([stops[0]] + w)[1..] == w;
      assert TriggeredAll([stops[0]] + w)[1..] == TriggeredAll(w);
    }

    method TriggerStops(price: nat)
      requires Shape()
      modifies asks, bids, askStoploss, bidStoploss, depth, this`models
      ensures Shape() && View() == TriggerStopLosses(old(View()), price, fillOrderFn)
    {
      hide TriggerHalf, AddStops, WakeAll;
      TriggerSide(AskSide, price);
      TriggerSide(BidSide, price);
    }

    method TradeBetween(ask: Order, bid: Order, incomingAsk: bool, incomingBid: bool)
      returns (askDone: bool, bidDone: bool)
      requires Shape()
      modifies this`models, asks, bids, askStoploss, bidStoploss, depth
      ensures Shape()
      ensures Made(View(), askDone, bidDone)
              == MakeTrade(old(View()), ask, bid, incomingAsk, incomingBid, fillOrderFn)
    {
      hide TradePrice, TradeQty, CloseDepth, TriggerStopLosses, Unfulfilled, Shape;
      var ap, bp := ProgressOf(models, ask.id), ProgressOf(models, bid.id);
      var price := TradePrice(ask, bid, CurrentPrice(models, ask.stockId));
      var qty := TradeQty(ask, ap, bid, bp);
      var r := fillOrderFn.fill(models, ask, bid, price, qty);
      models := r.m;
      if r.traded {
        depth.AddTrade(price, qty);
        if !incomingBid {
          CloseOrderInDepth(bid, qty);
        }
        if !incomingAsk {
          CloseOrderInDepth(ask, qty);
        }
        TriggerStops(price);
      } else {
        if !incomingBid && r.bid != AlreadyClosed {
          CloseOrderInDepth(bid, Unfulfilled(bid, ProgressOf(models, bid.id)));
        }
        if !incomingAsk && r.ask != AlreadyClosed {
          CloseOrderInDepth(ask, Unfulfilled(ask, ProgressOf(models, ask.id)));
        }
      }
      return r.ask != Undone, r.bid != Undone;
    }

    /** One turn of the loop of processAsk and processBid: trade with top, pop it if it is done, put
        the held-back orders back. b is the book before the counter-order was looked for. */
    method PlayTurn(o: Order, top: Order, sameUser: seq<Order>, ghost b: Book)
      returns (done: bool, topDone: bool)
      requires Shape()
      requires var (t, own, rest) := TopMatch(b, o);
               t == Some(top) && sameUser == own && View() == b.SetLive(Opposite(o.id.side), rest)
      modifies this`models, asks, bids, askStoploss, bidStoploss, depth
      ensures Shape()
      ensures var r := PlayRound(b, o, fillOrderFn);
              View() == r.b && done == r.done && topDone == r.topDone
    {
      hide Settle, SkipOwn, Heap.Pop, Heap.PushAll, TradePrice, TradeQty;
      var s := Opposite(o.id.side);
      if o.id.side.AskSide? {
        done, topDone := TradeBetween(o, top, true, false);
      } else {
        topDone, done := TradeBetween(top, o, false, true);
      }
      if topDone {
        var _ := Queue(s).Pop();
      }
      AddBackOrders(s, sameUser);
    }

    static lemma ProcessUnfolds(b: Book, o: Order, f: Desk)
      requires HasMatch(b, o)
      ensures var r := PlayRound(b, o, f);
              Process(b, o, f).b == if r.done || !r.topDone then r.b else Process(r.b, o, f).b
      ensures var r, s := PlayRound(b, o, f), Opposite(o.id.side);
              r.topDone ==> |r.b.Live(s)| + |r.b.Of(s).stops| < |b.Live(s)| + |b.Of(s).stops|
    {
    }

    /** processAsk and processBid. */
    method ProcessOrder(o: Order)
      requires Shape()
      modifies this`models, asks, bids, askStoploss, bidStoploss, depth
      ensures Shape() && View() == Process(old(View()), o, fillOrderFn).b
    {
      hide PlayRound, SkipOwn, Shape;
      var s := Opposite(o.id.side);
      ghost var b := View();
      var top, sameUser := GetTopMatching(s, o);
      while top.Some?
        invariant Shape()
        invariant Process(b, o, fillOrderFn).b == Process(old(View()), o, fillOrderFn).b
        invariant var (t, own, rest) := TopMatch(b, o);
                  && top == t
                  && (t.Some? ==> sameUser == own && View() == b.SetLive(s, rest))
                  && (t.None? ==> View() == b.SetLive(s, Heap.PushAll(LiveType(s), rest, own)))
        decreases |b.Live(s)| + |b.Of(s).stops|
      {
        ProcessUnfolds(b, o, fillOrderFn);
        var done, topDone := PlayTurn(o, top.value, sameUser, b);
        if !done && !topDone {
          return;
        }
        if done {
          return;
        }
        b := View();
        top, sameUser := GetTopMatching(s, o);
      }
      RestOrder(o, b);
    }

    method RestOrder(o: Order, ghost b: Book)
      requires Shape() && !HasMatch(b, o)
      requires var (_, own, rest) := TopMatch(b, o);
               var s := Opposite(o.id.side);
               View() == b.SetLive(s, Heap.PushAll(LiveType(s), rest, own))
      modifies Queue(o.id.side), depth
      ensures Shape() && View() == Rest(b, o)
    {
      Queue(o.id.side).Push(o);
      AddOrderToDepth(o);
    }

    /** One turn of clearExistingOrders: both orders are resting, and held-back asks go back before
        the finished ask is popped. b is the book before the ask was looked for. */
    method ClearOneTurn(bid: Order, top: Order, sameUser: seq<Order>, ghost b: Book)
      returns (askDone: bool, bidDone: bool, next: Option<Order>)
      requires Shape()
      requires var (t, own, rest) := TopIn(b, AskSide, bid);
               t == Some(top) && sameUser == own && View() == b.SetLive(AskSide, rest)
      modifies this`models, asks, bids, askStoploss, bidStoploss, depth
      ensures Shape()
      ensures var r := ClearRound(b, bid, fillOrderFn);
              View() == r.b && askDone == r.askDone && bidDone == r.bidDone && next == r.next
    {
      askDone, bidDone := TradeBetween(top, bid, false, false);
      AddBackOrders(AskSide, sameUser);
      next := Some(bid);
      if askDone {
        var _ := asks.Pop();
      }
      if bidDone {
        next := bids.Pop();
      }
    }

    static lemma ClearUnfolds(b: Book, bid: Order, f: Desk)
      requires TopIn(b, AskSide, bid).0.Some?
      ensures var r := ClearRound(b, bid, f);
              ClearLoop(b, bid, f).b
              == if (!r.askDone && !r.bidDone) || r.next.None? then r.b else ClearLoop(r.b, r.next.value, f).b
      ensures var r := ClearRound(b, bid, f);
              (r.askDone || r.bidDone) && r.next.Some? ==>
                |r.b.ask.live| + |r.b.ask.stops| + |r.b.bid.live| + |r.b.bid.stops|
                < |b.ask.live| + |b.ask.stops| + |b.bid.live| + |b.bid.stops|
    {
    }

    method ClearExistingOrders()
      requires Shape()
      modifies this`models, asks, bids, askStoploss, bidStoploss, depth
      ensures Shape() && View() == ClearExisting(old(View()), fillOrderFn).b
    {
      hide ClearRound, SkipOwn;
      var head := bids.Head();
      if head == None {
        return;
      }
      var bidTop := bids.Pop();
      ghost var b, cur := View(), bidTop.value;
      ghost var goal := ClearLoop(b, cur, fillOrderFn).b;
      var askTop, sameUser := GetTopMatching(AskSide, bidTop.value);
      while askTop.Some?
        invariant Shape() && bidTop == Some(cur) && ClearLoop(b, cur, fillOrderFn).b == goal
        invariant var (t, own, rest) := TopIn(b, AskSide, cur);
                  && askTop == t
                  && (t.Some? ==> sameUser == own && View() == b.SetLive(AskSide, rest))
                  && (t.None? ==> View() == b.SetLive(AskSide, Heap.PushAll(LiveType(AskSide), rest, own)))
        decreases |b.ask.live| + |b.ask.stops| + |b.bid.live| + |b.bid.stops|
      {
        ClearUnfolds(b, cur, fillOrderFn);
        var askDone, bidDone, next := ClearOneTurn(bidTop.value, askTop.value, sameUser, b);
        if !askDone && !bidDone {
          return;
        }
        bidTop := next;
        if bidTop == None {
          return;
        }
        b, cur := View(), bidTop.value;
        askTop, sameUser := GetTopMatching(AskSide, bidTop.value);
      }
      bids.Push(bidTop.value);
    }
  }
}
