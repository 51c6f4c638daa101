/** Matching on values: what each method of matchingengine/OrderBook.go computes. */
module Matching {
  import opened Orders
  import opened Wrappers
  import opened State
  import opened Depths
  import Heap

  /** One side of the book: the live queue and the dormant stop-losses. */
  datatype Half = Half(live: seq<Order>, stops: seq<Order>)

  datatype Book = Book(ask: Half, bid: Half, depth: Depth, m: Models)
  {
    function Of(s: Side): Half { if s == AskSide then ask else bid }

    function With(s: Side, h: Half): Book { if s == AskSide then this.(ask := h) else this.(bid := h) }

    function Live(s: Side): seq<Order> { Of(s).live }

    function SetLive(s: Side, q: seq<Order>): Book { With(s, Of(s).(live := q)) }

    function Progress(o: Order): Progress { ProgressOf(m, o.id) }
  }

  // -------------------------------------------------------------------------
  // Depth bookkeeping
  // -------------------------------------------------------------------------

  function AddToDepth(b: Book, o: Order): Book {
    b.(depth := Added(b.depth, IsMarket(o.oType), o.id.side, o.price, Unfulfilled(o, b.Progress(o))))
  }

  function CloseDepth(b: Book, o: Order, qty: nat): Book {
    b.(depth := Closed(b.depth, IsMarket(o.oType), o.id.side, o.price, qty))
  }

  // -------------------------------------------------------------------------
  // Stop-losses
  // -------------------------------------------------------------------------

  predicate ShouldTrigger(price: nat, o: Order) {
    if o.id.side == AskSide then price <= o.price else price >= o.price
  }

  /** The dormant stops that a trade at this price wakes, in pop order, and those left. */
  function Woken(t: PQType, stops: seq<Order>, price: nat): (r: (seq<Order>, seq<Order>))
    ensures |r.0| + |r.1| == |stops|
    decreases |stops|
  {
    if stops != [] && ShouldTrigger(price, stops[0]) then
      var (w, rest) := Woken(t, Heap.Pop(t, stops), price);
      ([stops[0]] + w, rest)
    else ([], stops)
  }

  function TriggeredAll(xs: seq<Order>): (r: seq<Order>)
    ensures |r| == |xs| && forall i :: 0 <= i < |xs| ==> r[i] == Triggered(xs[i])
    decreases |xs|
  {
    if xs == [] then [] else [Triggered(xs[0])] + TriggeredAll(xs[1..])
  }

  /** A woken stop enters the depth as a market order with its whole quantity. */
  function AddStops(d: Depth, s: Side, xs: seq<Order>): Depth
    decreases |xs|
  {
    if xs == [] then d else AddStops(Added(d, true, s, xs[0].price, xs[0].quantity), s, xs[1..])
  }

  /** Both queues together keep their size, and the live one never shrinks. */
  predicate HalfGrows(h: Half, r: Half) {
    |r.live| + |r.stops| == |h.live| + |h.stops| && |r.live| >= |h.live|
  }

  predicate Grows(b: Book, r: Book) {
    HalfGrows(b.ask, r.ask) && HalfGrows(b.bid, r.bid)
  }

  function TriggerHalf(s: Side, h: Half, price: nat): (r: Half)
    ensures HalfGrows(h, r)
  {
    var (w, rest) := Woken(StopType(s), h.stops, price);
    Half(Heap.PushAll(LiveType(s), h.live, TriggeredAll(w)), rest)
  }

  /** Every woken stop is saved, as far as the writes succeed; one that cannot be is woken all the same. */
  function WakeAll(m: Models, xs: seq<Order>, f: Desk): (r: Models)
    ensures r == m.(orders := r.orders, stored := r.stored)
    decreases |xs|
  {
    if xs == [] then m else WakeAll(Wake(m, xs[0], f.saves(m, xs[0])), xs[1..], f)
  }

  /** The accounts m once the stops of both sides that a trade at this price wakes are saved. */
  function AfterWakes(b: Book, m: Models, price: nat, f: Desk): (r: Models)
    ensures r == m.(orders := r.orders, stored := r.stored)
  {
    var asked := WakeAll(m, Woken(StopType(AskSide), b.ask.stops, price).0, f);
    WakeAll(asked, Woken(StopType(BidSide), b.bid.stops, price).0, f)
  }

  function TriggerStopLosses(b: Book, price: nat, f: Desk): (r: Book)
    ensures Grows(b, r)
    ensures r.m == b.m.(orders := r.m.orders, stored := r.m.stored)
  {
    var d := AddStops(b.depth, AskSide, Woken(StopType(AskSide), b.ask.stops, price).0);
    b.(ask := TriggerHalf(AskSide, b.ask, price),
       bid := TriggerHalf(BidSide, b.bid, price),
       depth := AddStops(d, BidSide, Woken(StopType(BidSide), b.bid.stops, price).0),
       m := AfterWakes(b, b.m, price, f))
  }

  // -------------------------------------------------------------------------
  // Picking a counter-order
  // -------------------------------------------------------------------------

  /** Pop the user's own orders off the top: those skipped, in pop order, and the queue left. */
  function SkipOwn(t: PQType, q: seq<Order>, userId: nat): (r: (seq<Order>, seq<Order>))
    ensures |r.0| + |r.1| == |q|
    ensures r.1 != [] ==> r.1[0].userId != userId
    decreases |q|
  {
    if q != [] && q[0].userId == userId then
      var (own, rest) := SkipOwn(t, Heap.Pop(t, q), userId);
      ([q[0]] + own, rest)
    else ([], q)
  }

  /** The counter-order for o in the queue of side s (or none), the skipped own orders and the
      queue without them. */
  function TopIn(b: Book, s: Side, o: Order): (r: (Option<Order>, seq<Order>, seq<Order>))
    ensures |r.1| + |r.2| == |b.Live(s)|
    ensures r.0.Some? ==> r.2 != [] && r.0.value == r.2[0] && r.0.value.userId != o.userId && MatchesIn(s, o, r.0.value)
    ensures r.0.None? ==> r.2 == [] || !MatchesIn(s, o, r.2[0])
  {
    var (own, rest) := SkipOwn(LiveType(s), b.Live(s), o.userId);
    if rest == [] || !MatchesIn(s, o, rest[0]) then (None, own, rest) else (Some(rest[0]), own, rest)
  }

  function TopMatch(b: Book, o: Order): (Option<Order>, seq<Order>, seq<Order>) {
    TopIn(b, Opposite(o.id.side), o)
  }

  // -------------------------------------------------------------------------
  // Trading
  // -------------------------------------------------------------------------

  datatype Made = Made(b: Book, askDone: bool, bidDone: bool)

  function TradeTerms(b: Book, ask: Order, bid: Order): (r: (nat, nat)) {
    (TradePrice(ask, bid, CurrentPrice(b.m, ask.stockId)),
     TradeQty(ask, b.Progress(ask), bid, b.Progress(bid)))
  }

  /** makeTrade after the fill has answered: depth, recent trades and stop-losses. */
  function Settle(b: Book, ask: Order, bid: Order, incomingAsk: bool, incomingBid: bool,
                  price: nat, qty: nat, r: FillResult, f: Desk): (b': Book)
    ensures Grows(b, b')
    ensures b'.m == r.m.(orders := b'.m.orders, stored := b'.m.stored)
  {
    var b0 := b.(m := r.m);
    if r.traded then
      var b1 := b0.(depth := TradeAdded(b0.depth, price, qty));
      var b2 := if incomingBid then b1 else CloseDepth(b1, bid, qty);
      var b3 := if incomingAsk then b2 else CloseDepth(b2, ask, qty);
      TriggerStopLosses(b3, price, f)
    else
      var b1 := if incomingBid || r.bid == AlreadyClosed then b0
                else CloseDepth(b0, bid, Unfulfilled(bid, b0.Progress(bid)));
      if incomingAsk || r.ask == AlreadyClosed then b1
      else CloseDepth(b1, ask, Unfulfilled(ask, b1.Progress(ask)))
  }

  function Fill(b: Book, ask: Order, bid: Order, f: Desk): FillResult {
    var (price, qty) := TradeTerms(b, ask, bid);
    f.fill(b.m, ask, bid, price, qty)
  }

  function MakeTrade(b: Book, ask: Order, bid: Order, incomingAsk: bool, incomingBid: bool, f: Desk): (r: Made)
    ensures Grows(b, r.b)
  {
    var (price, qty) := TradeTerms(b, ask, bid);
    var r := Fill(b, ask, bid, f);
    Made(Settle(b, ask, bid, incomingAsk, incomingBid, price, qty, r, f), r.ask != Undone, r.bid != Undone)
  }

  // -------------------------------------------------------------------------
  // An incoming order: processAsk and processBid, by the side of the order
  // -------------------------------------------------------------------------

  /** One turn of the loop: top is the counter-order traded with, popped what leaves its queue. */
  datatype Round = Round(b: Book, top: Order, popped: seq<Order>, done: bool, topDone: bool)

  predicate HasMatch(b: Book, o: Order) {
    TopMatch(b, o).0.Some?
  }

  function TradeWith(b: Book, o: Order, top: Order, f: Desk): (r: Made)
    ensures Grows(b, r.b)
  {
    if o.id.side == AskSide then MakeTrade(b, o, top, true, false, f) else MakeTrade(b, top, o, false, true, f)
  }

  function PlayRound(b: Book, o: Order, f: Desk): (r: Round)
    requires HasMatch(b, o)
    ensures var s := Opposite(o.id.side);
            |r.b.Live(s)| + |r.b.Of(s).stops| + |r.popped| == |b.Live(s)| + |b.Of(s).stops|
    ensures |r.popped| == if r.topDone then 1 else 0
  {
    var s := Opposite(o.id.side);
    var (top, own, rest) := TopMatch(b, o);
    var made := TradeWith(b.SetLive(s, rest), o, top.value, f);
    var (done, topDone) := if s == BidSide then (made.askDone, made.bidDone) else (made.bidDone, made.askDone);
    var live := made.b.Live(s);
    var left := if topDone then Heap.Pop(LiveType(s), live) else live;
    Round(made.b.SetLive(s, Heap.PushAll(LiveType(s), left, own)), top.value,
          if topDone then [live[0]] else [], done, topDone)
  }

  /** Failed: the fill reported both orders undone, and the incoming order is dropped. */
  datatype End = Completed | Failed | Rested

  /** finished: the counter-orders reported done; popped: what left their queue for it. */
  datatype Outcome = Outcome(b: Book, popped: seq<Order>, finished: seq<Order>, end: End)

  /** No match: skipped orders go back and the incoming order joins its own queue and the depth. */
  function Rest(b: Book, o: Order): Book {
    var s := Opposite(o.id.side);
    var (_, own, rest) := TopMatch(b, o);
    var b1 := b.SetLive(s, Heap.PushAll(LiveType(s), rest, own));
    AddToDepth(b1.SetLive(o.id.side, Heap.Push(LiveType(o.id.side), b1.Live(o.id.side), o)), o)
  }

  /** Terminates: every turn that goes on removes an order from the opposite queue, and woken
      stop-losses only move from one opposite queue to the other. */
  function Process(b: Book, o: Order, f: Desk): Outcome
    decreases |b.Live(Opposite(o.id.side))| + |b.Of(Opposite(o.id.side)).stops|
  {
    if !HasMatch(b, o) then Outcome(Rest(b, o), [], [], Rested)
    else
      var r := PlayRound(b, o, f);
      var finished := if r.topDone then [r.top] else [];
      if !r.done && !r.topDone then Outcome(r.b, r.popped, finished, Failed)
      else if r.done then Outcome(r.b, r.popped, finished, Completed)
      else
        var rest := Process(r.b, o, f);
        rest.(popped := r.popped + rest.popped, finished := finished + rest.finished)
  }

  // -------------------------------------------------------------------------
  // Start-up: clearExistingOrders
  // -------------------------------------------------------------------------

  /** One turn for the bid taken off its queue; next is the bid held afterwards. */
  datatype ClearTurn = ClearTurn(b: Book, top: Order, popped: seq<Order>, askDone: bool, bidDone: bool,
                                 next: Option<Order>)

  function ClearRound(b: Book, bid: Order, f: Desk): (r: ClearTurn)
    requires TopIn(b, AskSide, bid).0.Some?
    ensures |r.b.ask.live| + |r.b.ask.stops| + |r.popped| == |b.ask.live| + |b.ask.stops|
    ensures |r.popped| == if r.askDone then 1 else 0
    ensures |r.b.bid.live| + |r.b.bid.stops| + (if r.bidDone && r.next.Some? then 1 else 0)
            == |b.bid.live| + |b.bid.stops|
  {
    var (top, own, rest) := TopIn(b, AskSide, bid);
    var made := MakeTrade(b.SetLive(AskSide, rest), top.value, bid, false, false, f);
    var asks := Heap.PushAll(LiveType(AskSide), made.b.ask.live, own);
    var bids := made.b.bid.live;
    var (left, next) := if !made.bidDone then (bids, Some(bid))
                        else if bids == [] then ([], None)
                        else (Heap.Pop(LiveType(BidSide), bids), Some(bids[0]));
    ClearTurn(made.b.SetLive(AskSide, if made.askDone then Heap.Pop(LiveType(AskSide), asks) else asks)
                    .SetLive(BidSide, left),
              top.value, if made.askDone then [asks[0]] else [], made.askDone, made.bidDone, next)
  }

  /** dropped: the held bid that a failed fill leaves in no queue. */
  datatype Cleared = Cleared(b: Book, popped: seq<Order>, finished: seq<Order>, finishedBids: seq<Order>,
                             dropped: seq<Order>)

  /** Terminates: every turn that goes on takes an order off one side for good. */
  function ClearLoop(b: Book, bid: Order, f: Desk): Cleared
    decreases |b.ask.live| + |b.ask.stops| + |b.bid.live| + |b.bid.stops|
  {
    var (top, own, rest) := TopIn(b, AskSide, bid);
    if top.None? then
      var b1 := b.SetLive(AskSide, Heap.PushAll(LiveType(AskSide), rest, own));
      Cleared(b1.SetLive(BidSide, Heap.Push(LiveType(BidSide), b1.bid.live, bid)), [], [], [], [])
    else
      var r := ClearRound(b, bid, f);
      var finished := if r.askDone then [r.top] else [];
      var finishedBids := if r.bidDone then [bid] else [];
      if !r.askDone && !r.bidDone then Cleared(r.b, [], [], [], [bid])
      else if r.next.None? then Cleared(r.b, r.popped, finished, finishedBids, [])
      else
        var c := ClearLoop(r.b, r.next.value, f);
        Cleared(c.b, r.popped + c.popped, finished + c.finished, finishedBids + c.finishedBids, c.dropped)
  }

  function ClearExisting(b: Book, f: Desk): Cleared {
    if b.bid.live == [] then Cleared(b, [], [], [], [])
    else ClearLoop(b.SetLive(BidSide, Heap.Pop(LiveType(BidSide), b.bid.live)), b.bid.live[0], f)
  }

  // -------------------------------------------------------------------------
  // Orders entering and leaving without a match
  // -------------------------------------------------------------------------

  /** LoadOldAsk and LoadOldBid. */
  function Load(b: Book, o: Order): Book {
    var s := o.id.side;
    if o.oType == StopLoss then b.With(s, b.Of(s).(stops := Heap.Push(StopType(s), b.Of(s).stops, o)))
    else AddToDepth(b.SetLive(s, Heap.Push(LiveType(s), b.Live(s), o)), o)
  }

  /** AddAskOrder and AddBidOrder: a stop-loss whose price is already reached is active at once. */
  function AddNew(b: Book, o: Order, f: Desk): Book {
    if o.oType != StopLoss then Process(b, o, f).b
    else if ShouldTrigger(CurrentPrice(b.m, o.stockId), o) then
      Process(b.(m := Wake(b.m, o, f.saves(b.m, o))), Triggered(o), f).b
    else Load(b, o)
  }

  /** CancelAskOrder and CancelBidOrder: only the depth hears of it; dormant stops never were in it. */
  function CancelInBook(b: Book, o: Order): Book {
    if o.oType == StopLoss then b else CloseDepth(b, o, Unfulfilled(o, b.Progress(o)))
  }
}
