/** The incrementally maintained depth against the plain sum over resting orders. */
module DepthAgrees {
  import opened Words
  import opened Orders
  import opened State
  import opened Depths
  import opened Matching
  import opened BookTheorems
  import opened NoOrderLost
  import opened Sums

  /** What order o contributes to the total at price level k: its unfulfilled quantity while open. */
  function Weight(o: Order, pm: ProgressMap, k: nat): nat {
    var p := Look(pm, o);
    if Bucket(IsMarket(o.oType), o.price) == k && !p.isClosed then Unfulfilled(o, p) else 0
  }

  /** Limit orders count at their price, those that trade at any price at level 0: what is open and unfilled. */
  lemma CountsAt(o: Order, pm: ProgressMap, k: nat)
    requires o.id in pm && pm[o.id].fulfilled <= o.quantity
    ensures pm[o.id].isClosed ==> Weight(o, pm, k) == 0
    ensures !pm[o.id].isClosed && k != 0 && o.oType == Limit
            ==> Weight(o, pm, k) == if o.price == k then o.quantity - pm[o.id].fulfilled else 0
    ensures !pm[o.id].isClosed && (o.oType == Market || o.oType == StopLossActive)
            ==> Weight(o, pm, k) == if k == 0 then o.quantity - pm[o.id].fulfilled else 0
  {
  }

  function WeightAt(pm: ProgressMap, k: nat): Order -> int {
    (o: Order) => Weight(o, pm, k)
  }

  function OpenQty(q: seq<Order>, pm: ProgressMap, k: nat): int {
    Sum(q, WeightAt(pm, k))
  }

  /** Depth on one side equals the sum over the orders resting there, at every price. */
  ghost predicate Agrees(l: Level, q: seq<Order>, pm: ProgressMap) {
    forall k :: Get(l.depth, k) == OpenQty(q, pm, k)
  }

  // -------------------------------------------------------------------------
  // The sum
  // -------------------------------------------------------------------------

  lemma OpenQtyCons(o: Order, q: seq<Order>, pm: ProgressMap, k: nat)
    ensures OpenQty([o] + q, pm, k) == Weight(o, pm, k) + OpenQty(q, pm, k)
  {
    assert ([o] + q)[1..] == q;
    assert WeightAt(pm, k)(o) == Weight(o, pm, k);
  }

  lemma AgreesPermutes(l: Level, a: seq<Order>, c: seq<Order>, pm: ProgressMap)
    requires Agrees(l, a, pm) && multiset(a) == multiset(c)
    ensures Agrees(l, c, pm)
  {
    forall k ensures Get(l.depth, k) == OpenQty(c, pm, k) {
      SumPermutes(a, c, WeightAt(pm, k));
    }
  }

  lemma AgreesFrame(l: Level, q: seq<Order>, pm: ProgressMap, pm': ProgressMap)
    requires Agrees(l, q, pm) && forall o :: o in q ==> Look(pm, o) == Look(pm', o)
    ensures Agrees(l, q, pm')
  {
    forall k ensures Get(l.depth, k) == OpenQty(q, pm', k) {
      SumSame(q, WeightAt(pm, k), WeightAt(pm', k));
    }
  }

  // -------------------------------------------------------------------------
  // The four ways depth and queue change together
  // -------------------------------------------------------------------------

  /** An order joins the queue and its unfulfilled quantity joins the depth. */
  lemma AddKeeps(l: Level, q: seq<Order>, pm: ProgressMap, o: Order)
    requires Agrees(l, q, pm) && !Look(pm, o).isClosed
    ensures Agrees(AddLevel(l, Bucket(IsMarket(o.oType), o.price), Unfulfilled(o, Look(pm, o))), [o] + q, pm)
  {
    var l' := AddLevel(l, Bucket(IsMarket(o.oType), o.price), Unfulfilled(o, Look(pm, o)));
    forall k ensures Get(l'.depth, k) == OpenQty([o] + q, pm, k) {
      OpenQtyCons(o, q, pm, k);
      assert Get(l.depth, k) == OpenQty(q, pm, k);
    }
  }

  /** A closed order leaves the queue; the depth already forgot it. */
  lemma DropClosedKeeps(l: Level, q: seq<Order>, pm: ProgressMap, o: Order)
    requires Agrees(l, [o] + q, pm) && Look(pm, o).isClosed
    ensures Agrees(l, q, pm)
  {
    forall k ensures Get(l.depth, k) == OpenQty(q, pm, k) {
      OpenQtyCons(o, q, pm, k);
      assert Get(l.depth, k) == OpenQty([o] + q, pm, k);
    }
  }

  /** An open order's contribution shrinks by qty, whether by a fill or, when qty is all of it, by
      closing: the depth closes exactly qty, and the clamp in CloseOrder is not reached. */
  lemma ShrinkKeeps(l: Level, q: seq<Order>, pm: ProgressMap, pm': ProgressMap, o: Order, qty: nat)
    requires Agrees(l, [o] + q, pm)
    requires forall x :: x in q ==> Look(pm, x) == Look(pm', x)
    requires var k := Bucket(IsMarket(o.oType), o.price);
             qty <= Weight(o, pm, k) && Weight(o, pm', k) == Weight(o, pm, k) - qty
    ensures var k := Bucket(IsMarket(o.oType), o.price);
            qty <= Get(l.depth, k) && Agrees(CloseLevel(l, k, qty), [o] + q, pm')
  {
    var k := Bucket(IsMarket(o.oType), o.price);
    OpenQtyCons(o, q, pm, k);
    SumNonNegative(q, WeightAt(pm, k));
    assert Get(l.depth, k) == OpenQty([o] + q, pm, k);
    var r := CloseLevel(l, k, qty);
    forall j ensures Get(r.depth, j) == OpenQty([o] + q, pm', j) {
      SumSame(q, WeightAt(pm, j), WeightAt(pm', j));
      OpenQtyCons(o, q, pm, j);
      OpenQtyCons(o, q, pm', j);
      assert Get(l.depth, j) == OpenQty([o] + q, pm, j);
    }
  }

  /** Closing the depth of an order that stays open in the queue breaks the agreement. */
  lemma ForgottenDisagrees(l: Level, top: Order, q: seq<Order>, pm: ProgressMap,
                           live: seq<Order>, live': seq<Order>)
    requires Agrees(l, live, pm) && multiset(live) == multiset([top] + q) == multiset(live')
    requires !Look(pm, top).isClosed && WellFilled(top, pm)
    ensures !Agrees(CloseLevel(l, Bucket(IsMarket(top.oType), top.price), Unfulfilled(top, Look(pm, top))), live', pm)
  {
    var k := Bucket(IsMarket(top.oType), top.price);
    SumPermutes(live, [top] + q, WeightAt(pm, k));
    SumPermutes(live', [top] + q, WeightAt(pm, k));
    assert Get(l.depth, k) == OpenQty(live, pm, k);
    OpenQtyCons(top, q, pm, k);
    SumNonNegative(q, WeightAt(pm, k));
    assert Get(CloseLevel(l, k, Unfulfilled(top, Look(pm, top))).depth, k) < OpenQty(live', pm, k);
  }

  /** Counting a closed order breaks the agreement. */
  lemma PhantomDisagrees(l: Level, live: seq<Order>, live': seq<Order>, pm: ProgressMap, o: Order)
    requires Agrees(l, live, pm) && multiset(live') == multiset([o] + live)
    requires Look(pm, o).isClosed && Unfulfilled(o, Look(pm, o)) > 0
    ensures !Agrees(AddLevel(l, Bucket(IsMarket(o.oType), o.price), Unfulfilled(o, Look(pm, o))), live', pm)
  {
    var k := Bucket(IsMarket(o.oType), o.price);
    SumPermutes(live', [o] + live, WeightAt(pm, k));
    OpenQtyCons(o, live, pm, k);
    assert Get(l.depth, k) == OpenQty(live, pm, k);
    assert Get(AddLevel(l, k, Unfulfilled(o, Look(pm, o))).depth, k) > OpenQty(live', pm, k);
  }

  // -------------------------------------------------------------------------
  // The book
  // -------------------------------------------------------------------------

  /** No two orders share an id, and none is there twice. */
  ghost predicate UniqueIds(q: multiset<Order>) {
    && (forall x :: x in q ==> q[x] == 1)
    && (forall x, y :: x in q && y in q && x.id == y.id ==> x == y)
  }

  lemma UniqueSubset(a: multiset<Order>, c: multiset<Order>)
    requires UniqueIds(a) && c <= a
    ensures UniqueIds(c)
  {
  }

  ghost predicate Unseen(o: Order, q: multiset<Order>) {
    forall x :: x in q ==> x.id != o.id
  }

  ghost predicate AllFilledWell(q: multiset<Order>, pm: ProgressMap) {
    forall x :: x in q ==> WellFilled(x, pm)
  }

  /** Dormant stops have never been filled, but may have been cancelled. */
  ghost predicate Unfilled(xs: seq<Order>, pm: ProgressMap) {
    forall o :: o in xs ==> o.quantity > 0 && Look(pm, o).fulfilled == 0
  }

  /** The orders of one side, each there once and filled within its quantity. */
  ghost predicate Tracked(h: Half, pm: ProgressMap) {
    UniqueIds(Population(h)) && AllFilledWell(Population(h), pm) && Unfilled(h.stops, pm)
  }

  ghost predicate DepthHalf(l: Level, h: Half, pm: ProgressMap) {
    Agrees(l, h.live, pm) && Tracked(h, pm)
  }

  ghost predicate DepthOk(b: Book) {
    Valid(b) && forall s: Side :: DepthHalf(LevelOf(b.depth, s), b.Of(s), b.m.progress)
  }

  lemma DepthOkAt(b: Book, s: Side)
    requires DepthOk(b)
    ensures ValidHalf(s, b.Of(s)) && DepthHalf(LevelOf(b.depth, s), b.Of(s), b.m.progress)
  {
  }

  /** The part of it that does not concern the depth. */
  ghost predicate Sound(b: Book) {
    Valid(b) && forall s: Side :: Tracked(b.Of(s), b.m.progress)
  }

  lemma SoundOf(b: Book)
    requires DepthOk(b)
    ensures Sound(b)
  {
    forall s: Side ensures Tracked(b.Of(s), b.m.progress) {
      DepthOkAt(b, s);
    }
  }

  lemma SoundAt(b: Book, s: Side)
    requires Sound(b)
    ensures Valid(b) && ValidHalf(s, b.Of(s)) && Tracked(b.Of(s), b.m.progress)
  {
  }

  lemma LiveInPopulation(h: Half, x: Order)
    requires x in h.live
    ensures x in Population(h)
  {
    assert x in multiset(h.live);
  }

  lemma StopInPopulation(h: Half, x: Order)
    requires x in h.stops
    ensures Triggered(x) in TriggeredAll(h.stops) && Triggered(x) in Population(h)
  {
    var i :| 0 <= i < |h.stops| && h.stops[i] == x;
    assert TriggeredAll(h.stops)[i] == Triggered(x);
    assert Triggered(x) in multiset(TriggeredAll(h.stops));
  }

  /** No dormant stop shares its id with a live order. */
  lemma StopsApart(h: Half, x: Order, y: Order)
    requires UniqueIds(Population(h)) && x in h.live && y in h.stops
    ensures x.id != y.id
  {
    LiveInPopulation(h, x);
    StopInPopulation(h, y);
    assert Triggered(y) in multiset(TriggeredAll(h.stops)) && x in multiset(h.live);
    assert x == Triggered(y) ==> Population(h)[x] >= 2;
  }

  // -------------------------------------------------------------------------
  // What a fill can answer
  // -------------------------------------------------------------------------

  /** Two open orders trade, or nothing changes, or the bid is closed for lack of cash; an order closed
      before is reported as such. */
  ghost predicate Honest(m: Models, ask: Order, bid: Order, qty: nat, r: FillResult) {
    var ap, bp, ap', bp' := Look(m.progress, ask), Look(m.progress, bid), Look(r.m.progress, ask), Look(r.m.progress, bid);
    && (forall x: Order :: x.id != ask.id && x.id != bid.id ==> Look(r.m.progress, x) == Look(m.progress, x))
    && if ap.isClosed || bp.isClosed then
         && !r.traded && ap' == ap && bp' == bp
         && r.ask == (if ap.isClosed then AlreadyClosed else Undone)
         && r.bid == (if bp.isClosed then AlreadyClosed else Undone)
       else if r.traded then
         && ap' == FilledBy(ask, ap, qty) && bp' == FilledBy(bid, bp, qty)
         && r.ask == StatusOf(ap') && r.bid == StatusOf(bp')
       else
         && ap' == ap && r.ask == Undone
         && ((bp' == bp && r.bid == Undone) || (bp' == bp.(isClosed := true) && r.bid == Done))
  }

  function NextQty(b: Book, o: Order): nat
    requires HasMatch(b, o)
  {
    var top := TopMatch(b, o).0.value;
    Min(Unfulfilled(o, b.Progress(o)), Unfulfilled(top, b.Progress(top)))
  }

  /** The fill of the next turn, if there is one, is answered honestly. */
  ghost predicate HonestTurn(b: Book, o: Order, f: Desk) {
    HasMatch(b, o) ==>
      var top := TopMatch(b, o).0.value;
      var (ask, bid) := if o.id.side == AskSide then (o, top) else (top, o);
      Honest(b.m, ask, bid, NextQty(b, o), NextFill(b, o, f))
  }

  /** What the next fill says of the counter-order and of the incoming order. */
  function TopStatus(b: Book, o: Order, f: Desk): FillStatus
    requires HasMatch(b, o)
  {
    if o.id.side == AskSide then NextFill(b, o, f).bid else NextFill(b, o, f).ask
  }

  function OwnStatus(b: Book, o: Order, f: Desk): FillStatus
    requires HasMatch(b, o)
  {
    if o.id.side == AskSide then NextFill(b, o, f).ask else NextFill(b, o, f).bid
  }
}
