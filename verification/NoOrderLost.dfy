/** An incoming order against the book: nothing is lost or duplicated, and exactly when the order
    that leaves the queue is the one that finished. */
module NoOrderLost {
  import opened Orders
  import opened State
  import opened Matching
  import opened BookTheorems
  import Heap
  import Seqs

  /** The fill of the next turn and its price. */
  function NextFill(b: Book, o: Order, f: Desk): FillResult
    requires HasMatch(b, o)
  {
    var top := TopMatch(b, o).0.value;
    if o.id.side == AskSide then Fill(b, o, top, f) else Fill(b, top, o, f)
  }

  function NextPrice(b: Book, o: Order): nat
    requires HasMatch(b, o)
  {
    var top := TopMatch(b, o).0.value;
    if o.id.side == AskSide then TradeTerms(b, o, top).0 else TradeTerms(b, top, o).0
  }

  /** A trade wakes stop-losses; without one the queues stay put. */
  function AfterFill(s: Side, h: Half, traded: bool, price: nat): Half {
    if traded then TriggerHalf(s, h, price) else h
  }

  /** Pop the finished counter-order, if it finished, and put the skipped orders back. */
  function AfterPop(s: Side, h: Half, topDone: bool, own: seq<Order>): Half
    requires topDone ==> h.live != []
  {
    h.(live := Heap.PushAll(LiveType(s), if topDone then Heap.Pop(LiveType(s), h.live) else h.live, own))
  }

  /** What one turn does to the two halves of the book. */
  lemma RoundHalves(b: Book, o: Order, f: Desk)
    requires HasMatch(b, o)
    ensures var (top, own, rest) := TopMatch(b, o);
            var s := Opposite(o.id.side);
            var fill := NextFill(b, o, f);
            var h := AfterFill(s, Half(rest, b.Of(s).stops), fill.traded, NextPrice(b, o));
            var r := PlayRound(b, o, f);
            && h.live != []
            && r.b.Of(s) == AfterPop(s, h, r.topDone, own)
            && r.popped == (if r.topDone then [h.live[0]] else [])
            && r.b.Of(o.id.side) == AfterFill(o.id.side, b.Of(o.id.side), fill.traded, NextPrice(b, o))
            && r.b.m == (if fill.traded then AfterWakes(b, fill.m, NextPrice(b, o), f) else fill.m)
            && r.b.m == fill.m.(orders := r.b.m.orders, stored := r.b.m.stored)
            && r.top == top.value
            && r.topDone == ((if s == AskSide then fill.ask else fill.bid) != Undone)
            && r.done == ((if s == AskSide then fill.bid else fill.ask) != Undone)
  {
    hide Settle, AfterWakes, Heap.Pop, Heap.PushAll, TriggerHalf, TradePrice, TradeQty;
    var (top, _, rest) := TopMatch(b, o);
    var s := Opposite(o.id.side);
    var b0 := b.SetLive(s, rest);
    if s == BidSide {
      SettledHalves(b0, o, top.value, true, false, NextPrice(b, o), TradeTerms(b, o, top.value).1, NextFill(b, o, f), f);
    } else {
      SettledHalves(b0, top.value, o, false, true, NextPrice(b, o), TradeTerms(b, top.value, o).1, NextFill(b, o, f), f);
    }
    SameWakes(b, b0, NextFill(b, o, f).m, NextPrice(b, o), f);
  }

  lemma SettledHalves(b: Book, ask: Order, bid: Order, incomingAsk: bool, incomingBid: bool, price: nat, qty: nat,
                      fill: FillResult, f: Desk)
    ensures var b' := Settle(b, ask, bid, incomingAsk, incomingBid, price, qty, fill, f);
            && b'.ask == AfterFill(AskSide, b.ask, fill.traded, price)
            && b'.bid == AfterFill(BidSide, b.bid, fill.traded, price)
            && b'.m == (if fill.traded then AfterWakes(b, fill.m, price, f) else fill.m)
  {
    hide TriggerHalf, AddStops, WakeAll;
  }

  lemma SameWakes(b: Book, b': Book, m: Models, price: nat, f: Desk)
    requires b.ask.stops == b'.ask.stops && b.bid.stops == b'.bid.stops
    ensures AfterWakes(b, m, price, f) == AfterWakes(b', m, price, f)
  {
  }

  /** Where no stop-loss is dormant none is saved. */
  lemma NoWakes(b: Book, m: Models, price: nat, f: Desk)
    requires b.ask.stops == [] == b.bid.stops
    ensures AfterWakes(b, m, price, f) == m
  {
  }

  lemma PopRound(s: Side, h: Half, topDone: bool, own: seq<Order>)
    requires ValidHalf(s, h) && AllAwake(s, own) && (topDone ==> h.live != [])
    ensures ValidHalf(s, AfterPop(s, h, topDone, own))
    ensures Population(AfterPop(s, h, topDone, own)) + multiset(if topDone then [h.live[0]] else [])
            == Population(h) + multiset(own)
    ensures !topDone ==> Population(AfterPop(s, h, topDone, own)) == Population(h) + multiset(own)
  {
    var left := if topDone then Heap.Pop(LiveType(s), h.live) else h.live;
    if topDone {
      Heap.PopRefines(LiveType(s), h.live);
      Seqs.SameMembers(h.live, left, [h.live[0]]);
    }
    PushAllKeepsSide(s, left, own);
    Heap.PushAllRefines(LiveType(s), left, own);
  }

  lemma TopMatchHalf(b: Book, o: Order)
    requires Valid(b)
    ensures var (_, own, rest) := TopMatch(b, o);
            var s := Opposite(o.id.side);
            && ValidHalf(s, b.Of(s).(live := rest)) && AllAwake(s, own)
            && Population(b.Of(s).(live := rest)) + multiset(own) == Population(b.Of(s))
  {
    var s := Opposite(o.id.side);
    assert ValidHalf(s, b.Of(s));
    SkipOwnFacts(LiveType(s), b.Live(s), o.userId);
    var (_, own, rest) := TopMatch(b, o);
    Seqs.SameMembers(b.Live(s), own, rest);
  }

  lemma AfterFillKeeps(s: Side, h: Half, traded: bool, price: nat)
    requires ValidHalf(s, h)
    ensures ValidHalf(s, AfterFill(s, h, traded, price))
    ensures Population(AfterFill(s, h, traded, price)) == Population(h)
  {
    if traded {
      TriggerKeepsValid(s, h, price);
      TriggerKeepsPopulation(s, h, price);
    }
  }

  lemma RoundCounterSide(b: Book, o: Order, f: Desk)
    requires Valid(b) && HasMatch(b, o)
    ensures var r := PlayRound(b, o, f);
            var s := Opposite(o.id.side);
            ValidHalf(s, r.b.Of(s)) && Population(r.b.Of(s)) + multiset(r.popped) == Population(b.Of(s))
  {
    var s := Opposite(o.id.side);
    var (_, own, rest) := TopMatch(b, o);
    var h := Half(rest, b.Of(s).stops);
    var traded, price := NextFill(b, o, f).traded, NextPrice(b, o);
    RoundHalves(b, o, f);
    TopMatchHalf(b, o);
    AfterFillKeeps(s, h, traded, price);
    PopRound(s, AfterFill(s, h, traded, price), PlayRound(b, o, f).topDone, own);
  }

  lemma RoundOwnSide(b: Book, o: Order, f: Desk)
    requires Valid(b) && HasMatch(b, o)
    ensures var us, r := o.id.side, PlayRound(b, o, f);
            ValidHalf(us, r.b.Of(us)) && Population(r.b.Of(us)) == Population(b.Of(us))
  {
    var us := o.id.side;
    RoundHalves(b, o, f);
    assert ValidHalf(us, b.Of(us));
    AfterFillKeeps(us, b.Of(us), NextFill(b, o, f).traded, NextPrice(b, o));
  }

  /** One turn keeps both halves valid, and takes from the book exactly what it pops. */
  lemma RoundConserves(b: Book, o: Order, f: Desk)
    requires Valid(b) && HasMatch(b, o)
    ensures var r := PlayRound(b, o, f);
            var s := Opposite(o.id.side);
            && Valid(r.b)
            && Population(r.b.Of(s)) + multiset(r.popped) == Population(b.Of(s))
            && Population(r.b.Of(o.id.side)) == Population(b.Of(o.id.side))
  {
    RoundCounterSide(b, o, f);
    RoundOwnSide(b, o, f);
    forall x: Side ensures ValidHalf(x, PlayRound(b, o, f).b.Of(x)) {
      assert x == o.id.side || x == Opposite(o.id.side);
    }
  }

  // -------------------------------------------------------------------------
  // When is the popped order the finished one?
  // -------------------------------------------------------------------------

  /** The price of the next trade reaches a stop-loss on the counter side that ranks above the
      counter-order. */
  ghost predicate StopAbove(b: Book, o: Order)
    requires HasMatch(b, o)
  {
    var s := Opposite(o.id.side);
    var top := TopMatch(b, o).0.value;
    exists x :: x in b.Of(s).stops && ShouldTrigger(NextPrice(b, o), x) && Less(LiveType(s), top, Triggered(x))
  }

  /** The next trade wakes such a stop-loss. */
  ghost predicate Overtaken(b: Book, o: Order, f: Desk)
    requires HasMatch(b, o)
  {
    NextFill(b, o, f).traded && StopAbove(b, o)
  }

  lemma WakeOvertakesIff(s: Side, h: Half, price: nat)
    requires ValidHalf(s, h) && h.live != []
    ensures TriggerHalf(s, h, price).live[0] == h.live[0]
            <==> forall x :: x in h.stops && ShouldTrigger(price, x) ==> !Less(LiveType(s), h.live[0], Triggered(x))
  {
    var (w, rest) := Woken(StopType(s), h.stops, price);
    var tw := TriggeredAll(w);
    WokenFacts(s, h.stops, price);
    Heap.HeadSurvivesIff(LiveType(s), h.live, tw);
    Seqs.SameMembers(h.stops, w, rest);
    forall x | x in w ensures Triggered(x) in tw {
      var i :| 0 <= i < |w| && w[i] == x;
      assert tw[i] == Triggered(x);
    }
    forall y | y in tw ensures exists x :: x in w && y == Triggered(x) {
      var i :| 0 <= i < |tw| && tw[i] == y;
      assert w[i] in w && y == Triggered(w[i]);
    }
  }

  /** The order popped is the counter-order that finished if and only if the trade wakes no
      stop-loss on its side that ranks above it; otherwise that stop-loss is lost instead. */
  lemma PopsFinishedIff(b: Book, o: Order, f: Desk)
    requires Valid(b) && HasMatch(b, o) && PlayRound(b, o, f).topDone
    ensures var r := PlayRound(b, o, f);
            r.popped == [r.top] <==> !Overtaken(b, o, f)
  {
    var s := Opposite(o.id.side);
    var (top, _, rest) := TopMatch(b, o);
    RoundHalves(b, o, f);
    TopMatchHalf(b, o);
    if NextFill(b, o, f).traded {
      WakeOvertakesIff(s, Half(rest, b.Of(s).stops), NextPrice(b, o));
    }
  }

  /** No turn of the loop is overtaken. */
  ghost predicate Clean(b: Book, o: Order, f: Desk)
    decreases |b.Live(Opposite(o.id.side))| + |b.Of(Opposite(o.id.side)).stops|
  {
    HasMatch(b, o) ==>
      var r := PlayRound(b, o, f);
      && (r.topDone ==> !Overtaken(b, o, f))
      && (r.topDone && !r.done ==> Clean(r.b, o, f))
  }

  // -------------------------------------------------------------------------
  // The whole call
  // -------------------------------------------------------------------------

  /** Resting puts the skipped orders back and adds the order to its own queue. */
  lemma RestHalves(b: Book, o: Order)
    requires !HasMatch(b, o)
    ensures var (_, own, rest) := TopMatch(b, o);
            var s := Opposite(o.id.side);
            && Rest(b, o).Of(s) == AfterPop(s, b.Of(s).(live := rest), false, own)
            && Rest(b, o).Of(o.id.side)
               == b.Of(o.id.side).(live := Heap.Push(LiveType(o.id.side), b.Live(o.id.side), o))
            && Rest(b, o).m == b.m
  {
  }

  lemma PushHalf(s: Side, h: Half, o: Order)
    requires ValidHalf(s, h) && o.id.side == s && o.oType != StopLoss
    ensures var r := h.(live := Heap.Push(LiveType(s), h.live, o));
            ValidHalf(s, r) && Population(r) == Population(h) + multiset{o}
  {
    Heap.PushRefines(LiveType(s), h.live, o);
    Seqs.SameMembers(Heap.Push(LiveType(s), h.live, o), h.live, [o]);
  }

  lemma RestCounterSide(b: Book, o: Order)
    requires Valid(b) && !HasMatch(b, o)
    ensures var s := Opposite(o.id.side);
            ValidHalf(s, Rest(b, o).Of(s)) && Population(Rest(b, o).Of(s)) == Population(b.Of(s))
  {
    var s := Opposite(o.id.side);
    var (_, own, rest) := TopMatch(b, o);
    RestHalves(b, o);
    TopMatchHalf(b, o);
    PopRound(s, b.Of(s).(live := rest), false, own);
  }

  lemma RestOwnSide(b: Book, o: Order)
    requires Valid(b) && o.oType != StopLoss && !HasMatch(b, o)
    ensures var us := o.id.side;
            ValidHalf(us, Rest(b, o).Of(us)) && Population(Rest(b, o).Of(us)) == Population(b.Of(us)) + multiset{o}
  {
    RestHalves(b, o);
    assert ValidHalf(o.id.side, b.Of(o.id.side));
    PushHalf(o.id.side, b.Of(o.id.side), o);
  }

  lemma RestKeepsValid(b: Book, o: Order)
    requires Valid(b) && o.oType != StopLoss && !HasMatch(b, o)
    ensures Valid(Rest(b, o))
  {
    RestCounterSide(b, o);
    RestOwnSide(b, o);
    forall x: Side ensures ValidHalf(x, Rest(b, o).Of(x)) {
      assert x == o.id.side || x == Opposite(o.id.side);
    }
  }

  lemma {:induction false} ProcessKeepsValid(b: Book, o: Order, f: Desk)
    requires Valid(b) && o.oType != StopLoss
    ensures Valid(Process(b, o, f).b)
    decreases |b.Live(Opposite(o.id.side))| + |b.Of(Opposite(o.id.side)).stops|
  {
    if !HasMatch(b, o) {
      RestKeepsValid(b, o);
    } else {
      var r := PlayRound(b, o, f);
      RoundConserves(b, o, f);
      if r.topDone && !r.done {
        ProcessKeepsValid(r.b, o, f);
      }
    }
  }

  /** Processing an order conserves orders: the counter side loses exactly what was popped, and
      the order joins its own side exactly when it rests. */
  lemma {:induction false} ProcessConserves(b: Book, o: Order, f: Desk)
    requires Valid(b) && o.oType != StopLoss
    ensures var r := Process(b, o, f);
            var s := Opposite(o.id.side);
            && |r.popped| == |r.finished|
            && Population(r.b.Of(s)) + multiset(r.popped) == Population(b.Of(s))
            && Population(r.b.Of(o.id.side))
               == Population(b.Of(o.id.side)) + (if r.end == Rested then multiset{o} else multiset{})
    decreases |b.Live(Opposite(o.id.side))| + |b.Of(Opposite(o.id.side)).stops|
  {
    hide PlayRound, Rest, Population, Valid;
    if !HasMatch(b, o) {
      RestCounterSide(b, o);
      RestOwnSide(b, o);
    } else {
      var r := PlayRound(b, o, f);
      RoundConserves(b, o, f);
      if r.topDone && !r.done {
        ProcessConserves(r.b, o, f);
      }
    }
  }

  /** Over the whole call, what left the queue is exactly what finished, in order, if and only if
      no turn was overtaken by a woken stop-loss. */
  lemma {:induction false} PopsExactlyFinishedIff(b: Book, o: Order, f: Desk)
    requires Valid(b) && o.oType != StopLoss
    ensures Process(b, o, f).popped == Process(b, o, f).finished <==> Clean(b, o, f)
    decreases |b.Live(Opposite(o.id.side))| + |b.Of(Opposite(o.id.side)).stops|
  {
    if HasMatch(b, o) {
      var r := PlayRound(b, o, f);
      RoundConserves(b, o, f);
      if r.topDone {
        PopsFinishedIff(b, o, f);
        if !r.done {
          var tail := Process(r.b, o, f);
          PopsExactlyFinishedIff(r.b, o, f);
          assert (r.popped + tail.popped)[0] == r.popped[0];
          assert (r.popped + tail.popped)[1..] == tail.popped;
          assert ([r.top] + tail.finished)[1..] == tail.finished;
        }
      }
    }
  }

  /** With no dormant stop-loss on the counter side, no turn can be overtaken. */
  lemma {:induction false} CleanWithoutStops(b: Book, o: Order, f: Desk)
    requires Valid(b) && b.Of(Opposite(o.id.side)).stops == []
    ensures Clean(b, o, f)
    decreases |b.Live(Opposite(o.id.side))| + |b.Of(Opposite(o.id.side)).stops|
  {
    if HasMatch(b, o) {
      var r := PlayRound(b, o, f);
      RoundHalves(b, o, f);
      RoundConserves(b, o, f);
      if r.topDone && !r.done {
        CleanWithoutStops(r.b, o, f);
      }
    }
  }

  /** processAsk and processBid without counter-side stop-losses: the counter queue afterwards is
      the old one minus exactly the finished orders, skipped own orders included. */
  lemma NothingLost(b: Book, o: Order, f: Desk)
    requires Valid(b) && o.oType != StopLoss && b.Of(Opposite(o.id.side)).stops == []
    ensures var r := Process(b, o, f);
            var s := Opposite(o.id.side);
            multiset(r.b.Live(s)) + multiset(r.finished) == multiset(b.Live(s))
  {
    var r := Process(b, o, f);
    var s := Opposite(o.id.side);
    ProcessConserves(b, o, f);
    CleanWithoutStops(b, o, f);
    PopsExactlyFinishedIff(b, o, f);
    StopsStayEmpty(b, o, f);
    LivePopulation(r.b.Of(s));
    LivePopulation(b.Of(s));
  }

  lemma LivePopulation(h: Half)
    requires h.stops == []
    ensures Population(h) == multiset(h.live)
  {
  }

  lemma {:induction false} StopsStayEmpty(b: Book, o: Order, f: Desk)
    requires b.Of(Opposite(o.id.side)).stops == []
    ensures Process(b, o, f).b.Of(Opposite(o.id.side)).stops == []
    decreases |b.Live(Opposite(o.id.side))| + |b.Of(Opposite(o.id.side)).stops|
  {
    if HasMatch(b, o) {
      var r := PlayRound(b, o, f);
      RoundHalves(b, o, f);
      if r.topDone && !r.done {
        StopsStayEmpty(r.b, o, f);
      }
    }
  }

  // -------------------------------------------------------------------------
  // New orders
  // -------------------------------------------------------------------------

  /** A turn brings no stop-loss to the dormant queues. */
  lemma RoundStops(b: Book, o: Order, f: Desk, s: Side, x: Order)
    requires Valid(b) && HasMatch(b, o) && x in PlayRound(b, o, f).b.Of(s).stops
    ensures x in b.Of(s).stops
  {
    var before := if s == o.id.side then b.Of(s) else b.Of(s).(live := TopMatch(b, o).2);
    assert ValidHalf(s, b.Of(s));
    RoundHalves(b, o, f);
    TopMatchHalf(b, o);
    hide PlayRound, TopMatch;
    if NextFill(b, o, f).traded {
      TriggerExact(s, before, NextPrice(b, o));
    }
  }

  lemma {:induction false} ProcessStops(b: Book, o: Order, f: Desk, s: Side, x: Order)
    requires Valid(b) && o.oType != StopLoss && x in Process(b, o, f).b.Of(s).stops
    ensures x in b.Of(s).stops
    decreases |b.Live(Opposite(o.id.side))| + |b.Of(Opposite(o.id.side)).stops|
  {
    hide PlayRound, Rest, Valid;
    if !HasMatch(b, o) {
      RestHalves(b, o);
    } else {
      var r := PlayRound(b, o, f);
      RoundConserves(b, o, f);
      if r.topDone && !r.done {
        ProcessStops(r.b, o, f, s, x);
      }
      RoundStops(b, o, f, s, x);
    }
  }

  lemma SameHalvesValid(b: Book, m: Models)
    requires Valid(b)
    ensures Valid(b.(m := m))
  {
    forall s: Side ensures ValidHalf(s, b.(m := m).Of(s)) {
      assert ValidHalf(s, b.Of(s));
    }
  }

  /** A new order of any type leaves the queues valid. */
  lemma AddNewKeepsValid(b: Book, o: Order, f: Desk)
    requires Valid(b)
    ensures Valid(AddNew(b, o, f))
  {
    var s := o.id.side;
    if o.oType != StopLoss {
      ProcessKeepsValid(b, o, f);
    } else if ShouldTrigger(CurrentPrice(b.m, o.stockId), o) {
      SameHalvesValid(b, Wake(b.m, o, f.saves(b.m, o)));
      ProcessKeepsValid(b.(m := Wake(b.m, o, f.saves(b.m, o))), Triggered(o), f);
    } else {
      assert ValidHalf(s, b.Of(s));
      Heap.PushRefines(StopType(s), b.Of(s).stops, o);
      Seqs.SameMembers(Heap.Push(StopType(s), b.Of(s).stops, o), b.Of(s).stops, [o]);
      forall x: Side ensures ValidHalf(x, AddNew(b, o, f).Of(x)) {
        assert ValidHalf(x, b.Of(x));
      }
    }
  }

  /** A new stop-loss waits in its dormant queue if and only if the price has not reached it. */
  lemma StopWaitsIff(b: Book, o: Order, f: Desk)
    requires Valid(b) && o.oType == StopLoss && o !in b.Of(o.id.side).stops
    ensures o in AddNew(b, o, f).Of(o.id.side).stops <==> !ShouldTrigger(CurrentPrice(b.m, o.stockId), o)
  {
    var s := o.id.side;
    if ShouldTrigger(CurrentPrice(b.m, o.stockId), o) {
      hide Process, Wake;
      if o in AddNew(b, o, f).Of(s).stops {
        SameHalvesValid(b, Wake(b.m, o, f.saves(b.m, o)));
        ProcessStops(b.(m := Wake(b.m, o, f.saves(b.m, o))), Triggered(o), f, s, o);
      }
    } else {
      assert ValidHalf(s, b.Of(s));
      Heap.PushRefines(StopType(s), b.Of(s).stops, o);
      Seqs.SameMembers(Heap.Push(StopType(s), b.Of(s).stops, o), b.Of(s).stops, [o]);
    }
  }
}
