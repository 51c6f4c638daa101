/** One turn of matching and the depth: exactly when the depth still equals the sum over resting orders. */
module DepthTurn {
  import opened Words
  import opened Orders
  import opened State
  import opened Depths
  import opened Matching
  import opened BookTheorems
  import opened NoOrderLost
  import opened DepthAgrees
  import opened DepthStops
  import Heap
  import Seqs

  /** The incoming order is awake, well filled and not in the book yet. */
  ghost predicate Arriving(b: Book, o: Order) {
    o.oType != StopLoss && WellFilled(o, b.m.progress) && Unseen(o, Population(b.Of(o.id.side)))
  }

  /** The counter side without its best order, skipped own orders included. */
  function Others(b: Book, o: Order): seq<Order>
    requires HasMatch(b, o)
  {
    var (_, own, rest) := TopMatch(b, o);
    rest[1..] + own
  }

  /** The counter queue is its best other-user order and the others. */
  lemma CounterBefore(b: Book, o: Order)
    requires Valid(b) && HasMatch(b, o)
    ensures var (top, own, rest) := TopMatch(b, o);
            && [top.value] + Others(b, o) == rest + own
            && multiset(b.Live(Opposite(o.id.side))) == multiset([top.value] + Others(b, o))
  {
    hide SkipOwn, Heap.IsHeap, MatchesIn;
    var s := Opposite(o.id.side);
    var (top, own, rest) := TopMatch(b, o);
    assert ValidHalf(s, b.Of(s));
    assert Heap.IsHeap(LiveType(s), b.Live(s));
    SkipOwnFacts(LiveType(s), b.Live(s), o.userId);
    FirstAndRest(rest, own);
  }

  lemma FirstAndRest(rest: seq<Order>, own: seq<Order>)
    requires rest != []
    ensures [rest[0]] + (rest[1..] + own) == rest + own
    ensures multiset([rest[0]] + (rest[1..] + own)) == multiset(own) + multiset(rest)
  {
    assert [rest[0]] + (rest[1..] + own) == rest + own;
  }

  lemma OnceInLive(h: Half, x: Order)
    requires UniqueIds(Population(h)) && x in h.live
    ensures multiset(h.live)[x] == 1
  {
    assert x in multiset(h.live);
    assert x in Population(h);
  }

  lemma UniqueLive(h: Half, x: Order, y: Order)
    requires UniqueIds(Population(h)) && x in h.live && y in h.live && x.id == y.id
    ensures x == y
  {
    LiveInPopulation(h, x);
    LiveInPopulation(h, y);
  }

  lemma TopIsCounter(b: Book, o: Order)
    requires Sound(b) && HasMatch(b, o)
    ensures var s, top := Opposite(o.id.side), TopMatch(b, o).0.value;
            top in b.Live(s) && top.id.side == s && WellFilled(top, b.m.progress) && top.id != o.id
  {
    var s, top := Opposite(o.id.side), TopMatch(b, o).0.value;
    TopMatchCorrect(b, o);
    SoundAt(b, s);
    hide TopMatch;
    LiveInPopulation(b.Of(s), top);
  }

  lemma OthersApart(b: Book, o: Order, x: Order)
    requires Sound(b) && HasMatch(b, o) && x in Others(b, o)
    ensures var s, top := Opposite(o.id.side), TopMatch(b, o).0.value;
            x in b.Live(s) && x.id != top.id && x.id != o.id
  {
    var s, top, q := Opposite(o.id.side), TopMatch(b, o).0.value, Others(b, o);
    TopIsCounter(b, o);
    CounterBefore(b, o);
    SoundAt(b, s);
    hide TopMatch, Others;
    Seqs.SameMembers(b.Live(s), [top], q);
    OnceInLive(b.Of(s), top);
    assert multiset([top] + q) == multiset{top} + multiset(q);
    assert multiset(q)[top] == 0;
    if x.id == top.id {
      UniqueLive(b.Of(s), x, top);
    }
  }

  // -------------------------------------------------------------------------
  // What an honest fill leaves behind
  // -------------------------------------------------------------------------

  /** What an honest fill can do to the incoming order and the counter-order. */
  ghost predicate Answered(o: Order, top: Order, pm: ProgressMap, pm': ProgressMap, qty: nat, traded: bool,
                           own: FillStatus, counter: FillStatus) {
    var p, t, p', t' := Look(pm, o), Look(pm, top), Look(pm', o), Look(pm', top);
    && (forall x: Order :: x.id != o.id && x.id != top.id ==> Look(pm', x) == Look(pm, x))
    && (traded ==> !p.isClosed && !t.isClosed && p' == FilledBy(o, p, qty) && t' == FilledBy(top, t, qty)
                   && own == StatusOf(p') && counter == StatusOf(t'))
    && (!traded ==> p'.fulfilled == p.fulfilled && t'.fulfilled == t.fulfilled
                    && (own == Undone ==> p' == p && !p.isClosed) && (own != Undone ==> p'.isClosed)
                    && (counter == Undone ==> t' == t && !t.isClosed) && (counter != Undone ==> t'.isClosed)
                    && (counter == AlreadyClosed <==> t.isClosed))
  }

  lemma HonestNext(b: Book, o: Order, f: Desk)
    requires HonestTurn(b, o, f) && HasMatch(b, o) && TopMatch(b, o).0.value.id.side == Opposite(o.id.side)
    ensures Answered(o, TopMatch(b, o).0.value, b.m.progress, NextFill(b, o, f).m.progress, NextQty(b, o),
                     NextFill(b, o, f).traded, OwnStatus(b, o, f), TopStatus(b, o, f))
  {
    hide TopMatch, NextFill, NextQty;
  }

  /** Orders stay filled within their quantities. */
  lemma AnsweredWellFilled(o: Order, top: Order, pm: ProgressMap, pm': ProgressMap, traded: bool,
                           own: FillStatus, counter: FillStatus, x: Order, y: Order)
    requires WellFilled(o, pm) && WellFilled(top, pm) && o.id != top.id
    requires Answered(o, top, pm, pm', Min(Unfulfilled(o, Look(pm, o)), Unfulfilled(top, Look(pm, top))), traded, own, counter)
    requires WellFilled(x, pm) && (x.id == o.id ==> x == o) && (x.id == top.id ==> x == top)
    ensures WellFilled(x, pm')
  {
  }

  // -------------------------------------------------------------------------
  // Both sides stay tracked, whatever happens
  // -------------------------------------------------------------------------

  lemma TrackedKept(h: Half, h': Half, pm: ProgressMap, pm': ProgressMap)
    requires Tracked(h, pm) && Population(h') <= Population(h)
    requires forall x :: x in Population(h) ==> WellFilled(x, pm')
    requires forall x :: x in h'.stops ==> x in h.stops && Look(pm', x) == Look(pm, x)
    ensures Tracked(h', pm')
  {
    UniqueSubset(Population(h), Population(h'));
    forall x | x in Population(h') ensures WellFilled(x, pm') {
      assert x in Population(h);
    }
  }

  lemma StopsOnlyLeave(s: Side, h: Half, traded: bool, price: nat, x: Order)
    requires ValidHalf(s, h) && x in AfterFill(s, h, traded, price).stops
    ensures x in h.stops
  {
    if traded {
      TriggerExact(s, h, price);
    }
  }

  lemma PopulationIds(b: Book, o: Order, s: Side, x: Order)
    requires Sound(b) && HasMatch(b, o) && Arriving(b, o) && x in Population(b.Of(s))
    ensures x.id != o.id && x.id.side == s
    ensures x.id == TopMatch(b, o).0.value.id ==> x == TopMatch(b, o).0.value
  {
    TopIsCounter(b, o);
    SoundAt(b, s);
    PopulationSide(s, b.Of(s), x);
    hide TopMatch, Sound;
    if s == Opposite(o.id.side) {
      LiveInPopulation(b.Of(s), TopMatch(b, o).0.value);
    }
  }

  lemma PopulationSide(s: Side, h: Half, x: Order)
    requires ValidHalf(s, h) && x in Population(h)
    ensures x.id.side == s
  {
    assert x in multiset(h.live) || x in multiset(TriggeredAll(h.stops));
    if x !in h.live {
      var y := TriggeredMember(h.stops, x);
    }
  }

  /** Across a turn dormant stops are not touched... */
  lemma StopsUntouched(b: Book, o: Order, f: Desk, s: Side, x: Order)
    requires Sound(b) && HonestTurn(b, o, f) && HasMatch(b, o) && Arriving(b, o) && x in b.Of(s).stops
    ensures Look(NextFill(b, o, f).m.progress, x) == Look(b.m.progress, x)
  {
    var top := TopMatch(b, o).0.value;
    TopIsCounter(b, o);
    HonestNext(b, o, f);
    StopInPopulation(b.Of(s), x);
    PopulationIds(b, o, s, Triggered(x));
    SoundAt(b, s);
    hide TopMatch, NextFill, Sound, Arriving;
    if s == Opposite(o.id.side) {
      StopsApart(b.Of(s), top, x);
    }
  }

  /** ...and every order of the book stays well filled. */
  lemma PopulationWellFilled(b: Book, o: Order, f: Desk, s: Side, x: Order)
    requires Sound(b) && HonestTurn(b, o, f) && HasMatch(b, o) && Arriving(b, o) && x in Population(b.Of(s))
    ensures WellFilled(x, NextFill(b, o, f).m.progress)
  {
    TopIsCounter(b, o);
    HonestNext(b, o, f);
    PopulationIds(b, o, s, x);
    SoundAt(b, s);
    hide TopMatch, NextFill, Sound;
    AnsweredWellFilled(o, TopMatch(b, o).0.value, b.m.progress, NextFill(b, o, f).m.progress, NextFill(b, o, f).traded,
                       OwnStatus(b, o, f), TopStatus(b, o, f), x, x);
  }

  lemma TurnTracked(b: Book, o: Order, f: Desk, s: Side)
    requires Sound(b) && HonestTurn(b, o, f) && HasMatch(b, o) && Arriving(b, o)
    ensures var r := PlayRound(b, o, f); Tracked(r.b.Of(s), r.b.m.progress)
  {
    var r := PlayRound(b, o, f);
    var us, cs := o.id.side, Opposite(o.id.side);
    var fill, price := NextFill(b, o, f), NextPrice(b, o);
    SoundAt(b, s);
    RoundConserves(b, o, f);
    RoundHalves(b, o, f);
    TopMatchHalf(b, o);
    var before := if s == us then b.Of(us) else Half(TopMatch(b, o).2, b.Of(cs).stops);
    assert r.b.Of(s).stops == AfterFill(s, before, fill.traded, price).stops;
    assert ValidHalf(s, before) && before.stops == b.Of(s).stops;
    hide PlayRound, TopMatch, AfterFill, AfterPop, Valid, Population, ValidHalf;
    forall x | x in r.b.Of(s).stops ensures x in b.Of(s).stops && Look(r.b.m.progress, x) == Look(b.m.progress, x) {
      StopsOnlyLeave(s, before, fill.traded, price, x);
      StopsUntouched(b, o, f, s, x);
    }
    forall x | x in Population(b.Of(s)) ensures WellFilled(x, r.b.m.progress) {
      PopulationWellFilled(b, o, f, s, x);
    }
    hide Sound, HonestTurn, Arriving, WellFilled, Look;
    TrackedKept(b.Of(s), r.b.Of(s), b.m.progress, r.b.m.progress);
  }

  // -------------------------------------------------------------------------
  // The depth, when the fill does not trade
  // -------------------------------------------------------------------------

  /** Only the counter-order's level moves, unless the counter-order is reported as closed before. */
  lemma QuietLevels(b: Book, o: Order, f: Desk)
    requires HasMatch(b, o) && !NextFill(b, o, f).traded && TopMatch(b, o).0.value.id.side == Opposite(o.id.side)
    ensures var r, s, top := PlayRound(b, o, f), Opposite(o.id.side), TopMatch(b, o).0.value;
            var l, k := LevelOf(b.depth, s), Bucket(IsMarket(top.oType), top.price);
            && LevelOf(r.b.depth, s) == (if TopStatus(b, o, f) == AlreadyClosed then l
                                         else CloseLevel(l, k, Unfulfilled(top, Look(NextFill(b, o, f).m.progress, top))))
            && LevelOf(r.b.depth, o.id.side) == LevelOf(b.depth, o.id.side)
  {
    hide CloseLevel, SkipOwn, Unfulfilled, Matches, Less;
  }

  lemma PopThenPutBack(s: Side, rest: seq<Order>, own: seq<Order>, topDone: bool)
    requires Heap.IsHeap(LiveType(s), rest) && rest != []
    ensures multiset(AfterPop(s, Half(rest, []), topDone, own).live)
            == multiset(if topDone then rest[1..] + own else [rest[0]] + (rest[1..] + own))
  {
    var left := if topDone then Heap.Pop(LiveType(s), rest) else rest;
    Heap.PopRefines(LiveType(s), rest);
    Heap.PushAllRefines(LiveType(s), left, own);
    hide Heap.IsHeap, Heap.Pop, Heap.PushAll;
    Regroup(rest, own, left, topDone);
  }

  lemma Regroup(rest: seq<Order>, own: seq<Order>, left: seq<Order>, topDone: bool)
    requires rest != []
    requires if topDone then multiset(rest) == multiset(left) + multiset{rest[0]} else left == rest
    ensures multiset(left) + multiset(own)
            == multiset(if topDone then rest[1..] + own else [rest[0]] + (rest[1..] + own))
  {
    Seqs.TailMultiset(rest);
    if topDone {
      assert multiset(rest[1..]) == multiset(left);
    } else {
      assert [rest[0]] + (rest[1..] + own) == rest + own;
    }
  }

  /** The counter queue afterwards is the same, without the best order if it is done. */
  lemma QuietCounter(b: Book, o: Order, f: Desk)
    requires Valid(b) && HasMatch(b, o) && !NextFill(b, o, f).traded
    ensures var r, s, top := PlayRound(b, o, f), Opposite(o.id.side), TopMatch(b, o).0.value;
            && r.topDone == (TopStatus(b, o, f) != Undone)
            && multiset(r.b.Live(s)) == multiset(if r.topDone then Others(b, o) else [top] + Others(b, o))
            && r.b.Of(o.id.side) == b.Of(o.id.side)
  {
    var s := Opposite(o.id.side);
    var (top, own, rest) := TopMatch(b, o);
    assert ValidHalf(s, b.Of(s));
    SkipOwnFacts(LiveType(s), b.Live(s), o.userId);
    RoundHalves(b, o, f);
    PopThenPutBack(s, rest, own, PlayRound(b, o, f).topDone);
    hide PlayRound, SkipOwn, Valid, ValidHalf, Heap.IsHeap;
  }

  lemma LiveUntouched(b: Book, o: Order, f: Desk, x: Order)
    requires Sound(b) && HonestTurn(b, o, f) && HasMatch(b, o) && Arriving(b, o)
    requires x in b.Live(o.id.side) || x in Others(b, o)
    ensures Look(NextFill(b, o, f).m.progress, x) == Look(b.m.progress, x)
  {
    TopIsCounter(b, o);
    HonestNext(b, o, f);
    if x in b.Live(o.id.side) {
      LiveInPopulation(b.Of(o.id.side), x);
      PopulationIds(b, o, o.id.side, x);
    } else {
      OthersApart(b, o, x);
    }
  }

  /** A counter-order that is closed leaves with what the depth still has of it. */
  lemma CounterLeaves(l: Level, top: Order, q: seq<Order>, pm: ProgressMap, pm': ProgressMap, live: seq<Order>, live': seq<Order>)
    requires Agrees(l, live, pm) && multiset(live) == multiset([top] + q) && multiset(live') == multiset(q)
    requires forall x :: x in q ==> Look(pm', x) == Look(pm, x)
    requires Look(pm', top).isClosed && Look(pm', top).fulfilled == Look(pm, top).fulfilled
    ensures Agrees(if Look(pm, top).isClosed then l
                   else CloseLevel(l, Bucket(IsMarket(top.oType), top.price), Unfulfilled(top, Look(pm', top))), live', pm')
  {
    AgreesPermutes(l, live, [top] + q, pm);
    var l' := if Look(pm, top).isClosed then l
              else CloseLevel(l, Bucket(IsMarket(top.oType), top.price), Unfulfilled(top, Look(pm', top)));
    if Look(pm, top).isClosed {
      DropClosedKeeps(l, q, pm, top);
      AgreesFrame(l, q, pm, pm');
    } else {
      ShrinkKeeps(l, q, pm, pm', top, Unfulfilled(top, Look(pm', top)));
      DropClosedKeeps(l', q, pm', top);
    }
    AgreesPermutes(l', q, live', pm');
  }

  /** Without a trade the depth agrees afterwards if and only if the counter-order is closed: it is
      popped, but one that stays in the queue is forgotten all the same. */
  lemma QuietTurnIff(b: Book, o: Order, f: Desk)
    requires DepthOk(b) && HonestTurn(b, o, f) && HasMatch(b, o) && Arriving(b, o) && !NextFill(b, o, f).traded
    ensures var r, s, us := PlayRound(b, o, f), Opposite(o.id.side), o.id.side;
            && (Agrees(LevelOf(r.b.depth, s), r.b.Live(s), r.b.m.progress) <==> TopStatus(b, o, f) != Undone)
            && Agrees(LevelOf(r.b.depth, us), r.b.Live(us), r.b.m.progress)
  {
    SoundOf(b);
    var s, us, top, q := Opposite(o.id.side), o.id.side, TopMatch(b, o).0.value, Others(b, o);
    var r, pm, pm' := PlayRound(b, o, f), b.m.progress, NextFill(b, o, f).m.progress;
    DepthOkAt(b, s);
    DepthOkAt(b, us);
    TopIsCounter(b, o);
    HonestNext(b, o, f);
    QuietLevels(b, o, f);
    QuietCounter(b, o, f);
    CounterBefore(b, o);
    RoundHalves(b, o, f);
    forall x | x in b.Live(us) || x in q ensures Look(pm', x) == Look(pm, x) { LiveUntouched(b, o, f, x); }
    hide PlayRound, TopMatch, Others, DepthOk, HonestTurn, Arriving, Agrees, Valid, Tracked, AfterPop, AfterFill, NextFill,
         ValidHalf, CloseLevel;
    assert r.b.Live(us) == b.Live(us);
    AgreesFrame(LevelOf(b.depth, us), b.Live(us), pm, pm');
    if TopStatus(b, o, f) == Undone {
      CounterStays(LevelOf(b.depth, s), top, q, pm, pm', b.Live(s), r.b.Live(s));
    } else {
      CounterLeaves(LevelOf(b.depth, s), top, q, pm, pm', b.Live(s), r.b.Live(s));
    }
  }

  lemma CounterStays(l: Level, top: Order, q: seq<Order>, pm: ProgressMap, pm': ProgressMap, live: seq<Order>, live': seq<Order>)
    requires Agrees(l, live, pm) && multiset(live) == multiset([top] + q) == multiset(live')
    requires !Look(pm, top).isClosed && WellFilled(top, pm) && Look(pm', top) == Look(pm, top)
    requires forall x :: x in q ==> Look(pm', x) == Look(pm, x)
    ensures !Agrees(CloseLevel(l, Bucket(IsMarket(top.oType), top.price), Unfulfilled(top, Look(pm', top))), live', pm')
  {
    AgreesPermutes(l, live, [top] + q, pm);
    AgreesFrame(l, [top] + q, pm, pm');
    ForgottenDisagrees(l, top, q, pm', [top] + q, live');
  }

  // -------------------------------------------------------------------------
  // The depth, when it trades
  // -------------------------------------------------------------------------

  /** The counter-order's level loses what was traded; then woken stops join both sides. */
  lemma TradeLevels(b: Book, o: Order, f: Desk, s: Side, k: nat)
    requires HasMatch(b, o) && NextFill(b, o, f).traded && TopMatch(b, o).0.value.id.side == Opposite(o.id.side)
    ensures var r, top := PlayRound(b, o, f), TopMatch(b, o).0.value;
            var l := if s == o.id.side then LevelOf(b.depth, s)
                     else CloseLevel(LevelOf(b.depth, s), Bucket(IsMarket(top.oType), top.price), NextQty(b, o));
            Get(LevelOf(r.b.depth, s).depth, k)
            == Get(l.depth, k) + if k == 0 then Sums.Sum(WokenOf(s, b.Of(s), NextPrice(b, o)), WholeQuantity()) else 0
  {
    var (top, own, rest) := TopMatch(b, o);
    var b0 := b.SetLive(Opposite(o.id.side), rest);
    var qty := NextQty(b, o);
    var b1 := b0.(m := NextFill(b, o, f).m, depth := TradeAdded(b0.depth, NextPrice(b, o), qty));
    var b2 := CloseDepth(b1, top.value, qty);
    assert LevelOf(PlayRound(b, o, f).b.depth, s) == LevelOf(TriggerStopLosses(b2, NextPrice(b, o), f).depth, s) by {
      hide TriggerStopLosses, CloseLevel, SkipOwn;
    }
    TriggerLevels(b2, NextPrice(b, o), f, s, k);
    assert b2.Of(s).stops == b.Of(s).stops;
    hide TriggerStopLosses, PlayRound, SkipOwn;
  }

  lemma TradeOwnWoken(b: Book, o: Order, f: Desk)
    requires Valid(b) && HasMatch(b, o) && NextFill(b, o, f).traded
    requires TopMatch(b, o).0.value.id.side == Opposite(o.id.side)
    ensures var us, r := o.id.side, PlayRound(b, o, f);
            WokenInto(us, LevelOf(b.depth, us), b.Live(us), LevelOf(r.b.depth, us), r.b.Live(us),
                      WokenOf(us, b.Of(us), NextPrice(b, o)), [])
  {
    var us, price, r := o.id.side, NextPrice(b, o), PlayRound(b, o, f);
    assert ValidHalf(us, b.Of(us));
    RoundHalves(b, o, f);
    TriggerContents(us, b.Of(us), price);
    forall k: nat { TradeLevels(b, o, f, us, k); }
    assert r.b.Of(us) == TriggerHalf(us, b.Of(us), price);
    assert multiset(r.b.Live(us)) + multiset([]) == multiset(r.b.Live(us));
    hide PlayRound, TopMatch, Valid, ValidHalf, AfterPop, NextFill, NextPrice, TriggerHalf, WokenOf, LevelOf, CloseLevel;
  }

  /** On the incoming order's own side. */
  lemma TradeOwnIff(b: Book, o: Order, f: Desk)
    requires DepthOk(b) && HonestTurn(b, o, f) && HasMatch(b, o) && Arriving(b, o) && NextFill(b, o, f).traded
    ensures var r, us := PlayRound(b, o, f), o.id.side;
            Agrees(LevelOf(r.b.depth, us), r.b.Live(us), r.b.m.progress)
            <==> NoneCancelled(b.Of(us), b.m.progress, NextPrice(b, o))
  {
    SoundOf(b);
    var us, r := o.id.side, PlayRound(b, o, f);
    var pm, pm', h := b.m.progress, NextFill(b, o, f).m.progress, b.Of(us);
    DepthOkAt(b, us);
    TopIsCounter(b, o);
    ValidOf(b);
    TradeOwnWoken(b, o, f);
    RoundHalves(b, o, f);
    hide PlayRound, TopMatch, Valid, AfterPop, NextFill, NextPrice, WokenInto, AfterFill, DepthOk, HonestTurn, Arriving,
         WokenOf, Agrees, ValidHalf;
    forall x | x in h.live || x in h.stops ensures Look(pm', x) == Look(pm, x) {
      if x in h.live { LiveUntouched(b, o, f, x); } else { StopsUntouched(b, o, f, us, x); }
    }
    SideWoken(us, LevelOf(b.depth, us), LevelOf(r.b.depth, us), h, r.b.Live(us), WokenOf(us, h, NextPrice(b, o)),
              NextPrice(b, o), pm, pm');
  }

  /** One side on which only the stops reached by the price are woken. */
  lemma SideWoken(s: Side, l1: Level, l2: Level, h: Half, live2: seq<Order>, w: seq<Order>, price: nat,
                  pm: ProgressMap, pm': ProgressMap)
    requires ValidHalf(s, h) && Agrees(l1, h.live, pm) && Unfilled(h.stops, pm)
    requires w == WokenOf(s, h, price) && WokenInto(s, l1, h.live, l2, live2, w, [])
    requires forall x :: x in h.live || x in h.stops ==> Look(pm', x) == Look(pm, x)
    ensures Agrees(l2, live2, pm') <==> NoneCancelled(h, pm, price)
  {
    AgreesFrame(l1, h.live, pm, pm');
    NoneCancelledIff(s, h, price, pm);
    WokenUnfilled(s, h, price, pm);
    WokenAreReached(s, h, price);
    assert Unfilled(w, pm');
    hide WokenOf, ValidHalf, Agrees, WokenInto, Unfilled;
    assert AllOpen(w, pm) <==> AllOpen(w, pm');
    WokenAgreesIff(s, l1, h.live, l2, live2, w, [], pm');
    assert AllClosed([], pm');
  }

  /** The same after one of the orders, top, has been filled; h only tells the dormant stops. */
  lemma FilledSideWoken(s: Side, l: Level, l2: Level, h: Half, top: Order, q: seq<Order>, qty: nat,
                        live2: seq<Order>, w: seq<Order>, out: seq<Order>, price: nat, pm: ProgressMap, pm': ProgressMap)
    requires ValidHalf(s, h) && Agrees(l, [top] + q, pm) && Unfilled(h.stops, pm)
    requires w == WokenOf(s, h, price) && AllDormant(s, w)
    requires WellFilled(top, pm) && !Look(pm, top).isClosed
    requires qty <= Unfulfilled(top, Look(pm, top)) && Look(pm', top) == FilledBy(top, Look(pm, top), qty)
    requires forall x :: x in q || x in h.stops ==> Look(pm', x) == Look(pm, x)
    requires var l1 := CloseLevel(l, Bucket(IsMarket(top.oType), top.price), qty);
             forall k: nat :: Get(l2.depth, k) == Get(l1.depth, k) + if k == 0 then Sums.Sum(w, WholeQuantity()) else 0
    requires multiset(live2) + multiset(out) == multiset([top] + q) + multiset(TriggeredAll(w))
    requires forall x :: x in out ==> WellFilled(x, pm')
    ensures Agrees(l2, live2, pm') <==> NoneCancelled(h, pm, price) && AllClosed(out, pm')
  {
    hide WokenOf, ValidHalf, Agrees, CloseLevel, NoneCancelled, TriggeredAll;
    ShrinkKeeps(l, q, pm, pm', top, qty);
    NoneCancelledIff(s, h, price, pm);
    WokenUnfilled(s, h, price, pm);
    WokenAreReached(s, h, price);
    SameOpen(h.stops, w, pm, pm');
    WokenAgreesIff(s, CloseLevel(l, Bucket(IsMarket(top.oType), top.price), qty), [top] + q, l2, live2, w, out, pm');
  }

  lemma SameOpen(stops: seq<Order>, w: seq<Order>, pm: ProgressMap, pm': ProgressMap)
    requires forall x :: x in w ==> x in stops
    requires forall x :: x in stops ==> Look(pm', x) == Look(pm, x)
    ensures AllOpen(w, pm) <==> AllOpen(w, pm')
    ensures Unfilled(w, pm) <==> Unfilled(w, pm')
  {
  }

  /** If no woken stop was cancelled, the order popped is a closed one exactly when it is the finished one. */
  lemma PoppedClosedIff(b: Book, o: Order, f: Desk)
    requires DepthOk(b) && HonestTurn(b, o, f) && HasMatch(b, o) && Arriving(b, o) && NextFill(b, o, f).traded
    requires NoneCancelled(b.Of(Opposite(o.id.side)), b.m.progress, NextPrice(b, o))
    ensures var r := PlayRound(b, o, f);
            AllClosed(r.popped, r.b.m.progress) <==> (r.topDone ==> !Overtaken(b, o, f))
  {
    hide PlayRound, TopMatch, DepthOk, Sound, Arriving, HonestTurn, Overtaken, NextFill, NextPrice, HasMatch, TopStatus, NoneCancelled;
    SoundOf(b);
    ValidOf(b);
    PoppedIs(b, o, f);
    var r := PlayRound(b, o, f);
    if r.topDone {
      FinishedIsClosed(b, o, f);
      if Overtaken(b, o, f) {
        WokenStaysOpen(b, o, f, r.popped[0]);
      }
    }
  }

  lemma ValidOf(b: Book)
    requires DepthOk(b) || Sound(b)
    ensures Valid(b)
  {
  }

  lemma FinishedIsClosed(b: Book, o: Order, f: Desk)
    requires Sound(b) && HonestTurn(b, o, f) && HasMatch(b, o) && TopStatus(b, o, f) != Undone
    ensures Look(NextFill(b, o, f).m.progress, TopMatch(b, o).0.value).isClosed
  {
    TopIsCounter(b, o);
    HonestNext(b, o, f);
  }

  lemma WokenStaysOpen(b: Book, o: Order, f: Desk, y: Order)
    requires Sound(b) && HonestTurn(b, o, f) && HasMatch(b, o) && Arriving(b, o)
    requires NoneCancelled(b.Of(Opposite(o.id.side)), b.m.progress, NextPrice(b, o))
    requires y in TriggeredAll(WokenOf(Opposite(o.id.side), b.Of(Opposite(o.id.side)), NextPrice(b, o)))
    ensures !Look(NextFill(b, o, f).m.progress, y).isClosed
  {
    hide Sound, HonestTurn, Arriving, TopMatch, NextFill, NextPrice;
    var s, price := Opposite(o.id.side), NextPrice(b, o);
    var x := TriggeredMember(WokenOf(s, b.Of(s), price), y);
    SoundAt(b, s);
    WokenAreReached(s, b.Of(s), price);
    StopsUntouched(b, o, f, s, x);
  }

  /** What a trading turn pops: the finished order, or a woken stop that has overtaken it. */
  lemma PoppedIs(b: Book, o: Order, f: Desk)
    requires Valid(b) && HasMatch(b, o) && NextFill(b, o, f).traded
    ensures var r, s := PlayRound(b, o, f), Opposite(o.id.side);
            && r.b.m.progress == NextFill(b, o, f).m.progress && r.topDone == (TopStatus(b, o, f) != Undone)
            && if !r.topDone then r.popped == []
               else if !Overtaken(b, o, f) then r.popped == [TopMatch(b, o).0.value]
               else |r.popped| == 1 && r.popped[0] in TriggeredAll(WokenOf(s, b.Of(s), NextPrice(b, o)))
  {
    var s, r, price := Opposite(o.id.side), PlayRound(b, o, f), NextPrice(b, o);
    var (top, own, rest) := TopMatch(b, o);
    RoundHalves(b, o, f);
    TopMatchHalf(b, o);
    if r.topDone {
      PopsFinishedIff(b, o, f);
      OvertakerIsWoken(s, Half(rest, b.Of(s).stops), price);
    }
    hide PlayRound, TopMatch, TriggerHalf, Valid, ValidHalf, Population, Overtaken, AfterWakes, NextFill, NextPrice;
  }

  lemma PoppedWellFilled(b: Book, o: Order, f: Desk, x: Order)
    requires Sound(b) && HonestTurn(b, o, f) && HasMatch(b, o) && Arriving(b, o) && x in PlayRound(b, o, f).popped
    ensures WellFilled(x, NextFill(b, o, f).m.progress)
  {
    var s := Opposite(o.id.side);
    RoundConserves(b, o, f);
    var r := PlayRound(b, o, f);
    hide PlayRound, Population, Sound;
    assert x in multiset(r.popped);
    assert x in Population(b.Of(s));
    PopulationWellFilled(b, o, f, s, x);
  }

  /** On the counter side. */
  lemma TradeCounterIff(b: Book, o: Order, f: Desk)
    requires DepthOk(b) && HonestTurn(b, o, f) && HasMatch(b, o) && Arriving(b, o) && NextFill(b, o, f).traded
    ensures var r, s := PlayRound(b, o, f), Opposite(o.id.side);
            Agrees(LevelOf(r.b.depth, s), r.b.Live(s), r.b.m.progress)
            <==> NoneCancelled(b.Of(s), b.m.progress, NextPrice(b, o)) && AllClosed(r.popped, r.b.m.progress)
  {
    SoundOf(b);
    var s, price, r := Opposite(o.id.side), NextPrice(b, o), PlayRound(b, o, f);
    var (top, own, rest) := TopMatch(b, o);
    var q, qty, pm, pm' := Others(b, o), NextQty(b, o), b.m.progress, NextFill(b, o, f).m.progress;
    var h, w := b.Of(s), WokenOf(s, b.Of(s), price);
    DepthOkAt(b, s);
    TopIsCounter(b, o);
    HonestNext(b, o, f);
    CounterBefore(b, o);
    TopMatchHalf(b, o);
    RoundHalves(b, o, f);
    WakePopContents(s, Half(rest, h.stops), price, r.topDone, own);
    assert w == WokenOf(s, Half(rest, h.stops), price);
    forall k: nat { TradeLevels(b, o, f, s, k); }
    forall x | x in q ensures Look(pm', x) == Look(pm, x) { LiveUntouched(b, o, f, x); }
    forall x | x in h.stops ensures Look(pm', x) == Look(pm, x) { StopsUntouched(b, o, f, s, x); }
    forall x | x in r.popped ensures WellFilled(x, pm') { PoppedWellFilled(b, o, f, x); }
    hide PlayRound, TopMatch, Others, DepthOk, HonestTurn, Arriving, Valid, AfterPop, NextFill, NextPrice, NextQty, TriggerHalf,
         WokenOf, Population, CloseLevel, TriggeredAll;
    AgreesPermutes(LevelOf(b.depth, s), b.Live(s), [top.value] + q, pm);
    FilledSideWoken(s, LevelOf(b.depth, s), LevelOf(r.b.depth, s), h, top.value, q, qty, r.b.Live(s), w, r.popped, price, pm, pm');
  }

  // -------------------------------------------------------------------------
  // The turn
  // -------------------------------------------------------------------------

  /** The turn trades, wakes no stop that was cancelled while dormant, and pops nothing but what finished;
      or it does not trade but finds the counter-order closed, or closes it. */
  ghost predicate KeepsDepth(b: Book, o: Order, f: Desk)
    requires HasMatch(b, o)
  {
    if NextFill(b, o, f).traded then
      && (forall s: Side :: NoneCancelled(b.Of(s), b.m.progress, NextPrice(b, o)))
      && (TopStatus(b, o, f) != Undone ==> !Overtaken(b, o, f))
    else TopStatus(b, o, f) != Undone
  }

  lemma AgreesIsDepthOk(b: Book, us: Side)
    requires Valid(b) && forall s: Side :: Tracked(b.Of(s), b.m.progress)
    ensures DepthOk(b) <==> Agrees(LevelOf(b.depth, us), b.Live(us), b.m.progress)
                            && Agrees(LevelOf(b.depth, Opposite(us)), b.Live(Opposite(us)), b.m.progress)
  {
    hide Valid, Tracked, Agrees;
    if Agrees(LevelOf(b.depth, us), b.Live(us), b.m.progress)
       && Agrees(LevelOf(b.depth, Opposite(us)), b.Live(Opposite(us)), b.m.progress) {
      forall s: Side ensures DepthHalf(LevelOf(b.depth, s), b.Of(s), b.m.progress) {
        assert s == us || s == Opposite(us);
      }
    } else if DepthOk(b) {
      DepthOkAt(b, us);
      DepthOkAt(b, Opposite(us));
    }
  }

  /** One turn, for an incoming order open or cancelled, with any dormant stop-losses and any honest fill:
      afterwards the depth still equals the sum of the open quantities if and only if the turn keeps it. */
  lemma TurnKeepsDepthIff(b: Book, o: Order, f: Desk)
    requires DepthOk(b) && HonestTurn(b, o, f) && HasMatch(b, o) && Arriving(b, o)
    ensures DepthOk(PlayRound(b, o, f).b) <==> KeepsDepth(b, o, f)
  {
    SoundOf(b);
    var r, us := PlayRound(b, o, f), o.id.side;
    assert Valid(r.b) by { assert Valid(b); RoundConserves(b, o, f); }
    forall s: Side ensures Tracked(r.b.Of(s), r.b.m.progress) { TurnTracked(b, o, f, s); }
    hide PlayRound, HonestTurn, Arriving, Valid, Tracked, Agrees, NextFill, DepthOk, KeepsDepth, HasMatch;
    AgreesIsDepthOk(r.b, us);
    if NextFill(b, o, f).traded {
      TradeTurnIff(b, o, f);
    } else {
      QuietTurnIff(b, o, f);
      QuietKeepsIff(b, o, f);
    }
  }

  lemma QuietKeepsIff(b: Book, o: Order, f: Desk)
    requires HasMatch(b, o) && !NextFill(b, o, f).traded
    ensures KeepsDepth(b, o, f) <==> TopStatus(b, o, f) != Undone
  {
  }

  lemma TradeTurnIff(b: Book, o: Order, f: Desk)
    requires DepthOk(b) && HonestTurn(b, o, f) && HasMatch(b, o) && Arriving(b, o) && NextFill(b, o, f).traded
    ensures var r, us, s := PlayRound(b, o, f), o.id.side, Opposite(o.id.side);
            KeepsDepth(b, o, f) <==> Agrees(LevelOf(r.b.depth, us), r.b.Live(us), r.b.m.progress)
                                     && Agrees(LevelOf(r.b.depth, s), r.b.Live(s), r.b.m.progress)
  {
    TradeOwnIff(b, o, f);
    TradeCounterIff(b, o, f);
    BothSides(b, o.id.side, NextPrice(b, o));
    assert Valid(b);
    PoppedIs(b, o, f);
    hide PlayRound, TopMatch, HonestTurn, Arriving, Valid, Agrees, NextFill, NextPrice, NoneCancelled, Overtaken, DepthOk;
    if NoneCancelled(b.Of(Opposite(o.id.side)), b.m.progress, NextPrice(b, o)) {
      PoppedClosedIff(b, o, f);
    }
  }

  lemma BothSides(b: Book, us: Side, price: nat)
    ensures (forall s: Side :: NoneCancelled(b.Of(s), b.m.progress, price))
            <==> NoneCancelled(b.Of(us), b.m.progress, price) && NoneCancelled(b.Of(Opposite(us)), b.m.progress, price)
  {
    if NoneCancelled(b.Of(us), b.m.progress, price) && NoneCancelled(b.Of(Opposite(us)), b.m.progress, price) {
      forall s: Side ensures NoneCancelled(b.Of(s), b.m.progress, price) {
        assert s == us || s == Opposite(us);
      }
    }
  }

  /** What the turn does to the incoming order itself. */
  lemma OwnAfterTurn(b: Book, o: Order, f: Desk)
    requires Sound(b) && HonestTurn(b, o, f) && HasMatch(b, o) && Arriving(b, o)
    ensures var pm' := NextFill(b, o, f).m.progress;
            && WellFilled(o, pm') && (OwnStatus(b, o, f) != Undone <==> Look(pm', o).isClosed)
            && (NextFill(b, o, f).traded ==> OwnStatus(b, o, f) != Undone || TopStatus(b, o, f) != Undone)
            && (Look(b.m.progress, o).isClosed ==> Look(pm', o).isClosed)
  {
    TopIsCounter(b, o);
    HonestNext(b, o, f);
    hide TopMatch, NextFill, Sound, HonestTurn;
    AnsweredWellFilled(o, TopMatch(b, o).0.value, b.m.progress, NextFill(b, o, f).m.progress, NextFill(b, o, f).traded,
                       OwnStatus(b, o, f), TopStatus(b, o, f), o, o);
  }

  /** A turn leaves the incoming order fit for the next one. */
  lemma TurnKeepsArriving(b: Book, o: Order, f: Desk)
    requires Sound(b) && HonestTurn(b, o, f) && HasMatch(b, o) && Arriving(b, o)
    ensures var r := PlayRound(b, o, f);
            && Arriving(r.b, o) && r.done == Look(r.b.m.progress, o).isClosed
            && r.topDone == (TopStatus(b, o, f) != Undone)
            && (NextFill(b, o, f).traded ==> r.done || r.topDone)
  {
    hide TopMatch, NextFill, HonestTurn, HasMatch, AfterFill, AfterPop, WellFilled, Sound, Population;
    OwnAfterTurn(b, o, f);
    RoundHalves(b, o, f);
    ValidOf(b);
    hide PlayRound, Valid;
    RoundConserves(b, o, f);
  }

  lemma TurnSound(b: Book, o: Order, f: Desk)
    requires Sound(b) && HonestTurn(b, o, f) && HasMatch(b, o) && Arriving(b, o)
    ensures Sound(PlayRound(b, o, f).b)
  {
    hide PlayRound, HonestTurn, HasMatch, Arriving, Tracked;
    assert Valid(b);
    RoundConserves(b, o, f);
    forall s: Side ensures Tracked(PlayRound(b, o, f).b.Of(s), PlayRound(b, o, f).b.m.progress) { TurnTracked(b, o, f, s); }
  }
}
