/** Depth over whole calls, and over loading and cancelling. */
module DepthRuns {
  import opened Orders
  import opened State
  import opened Depths
  import opened Matching
  import opened BookTheorems
  import opened NoOrderLost
  import opened DepthAgrees
  import opened DepthStops
  import opened DepthTurn
  import Heap
  import Seqs

  lemma RestLevels(b: Book, o: Order)
    requires !HasMatch(b, o)
    ensures var us, s := o.id.side, Opposite(o.id.side);
            && LevelOf(Rest(b, o).depth, us)
               == AddLevel(LevelOf(b.depth, us), Bucket(IsMarket(o.oType), o.price),
                           Unfulfilled(o, Look(b.m.progress, o)))
            && LevelOf(Rest(b, o).depth, s) == LevelOf(b.depth, s)
  {
  }

  lemma RestQueues(b: Book, o: Order)
    requires Valid(b) && !HasMatch(b, o)
    ensures multiset(Rest(b, o).Live(o.id.side)) == multiset([o] + b.Live(o.id.side))
    ensures multiset(Rest(b, o).Live(Opposite(o.id.side))) == multiset(b.Live(Opposite(o.id.side)))
    ensures forall s: Side :: Rest(b, o).Of(s).stops == b.Of(s).stops
  {
    RestHalves(b, o);
    assert ValidHalf(o.id.side, b.Of(o.id.side));
    assert ValidHalf(Opposite(o.id.side), b.Of(Opposite(o.id.side)));
    hide Rest;
    Heap.PushRefines(LiveType(o.id.side), b.Live(o.id.side), o);
    PutBackRestores(LiveType(Opposite(o.id.side)), b.Live(Opposite(o.id.side)), o.userId);
    forall s: Side ensures Rest(b, o).Of(s).stops == b.Of(s).stops {
      assert s == o.id.side || s == Opposite(o.id.side);
    }
  }

  /** Exchanging orders within a queue changes nothing. */
  lemma SameHalf(l: Level, h: Half, h': Half, pm: ProgressMap)
    requires DepthHalf(l, h, pm) && h'.stops == h.stops && multiset(h'.live) == multiset(h.live)
    ensures DepthHalf(l, h', pm)
  {
    AgreesPermutes(l, h.live, h'.live, pm);
  }

  lemma JoinTracked(h: Half, h': Half, pm: ProgressMap, o: Order)
    requires Tracked(h, pm) && Population(h') == Population(h) + multiset{o} && Unfilled(h'.stops, pm)
    requires WellFilled(o, pm) && Unseen(o, Population(h))
    ensures Tracked(h', pm)
  {
    assert Population(h)[o] == 0;
  }

  lemma JoinHalf(l: Level, h: Half, h': Half, pm: ProgressMap, o: Order)
    requires DepthHalf(l, h, pm) && h'.stops == h.stops && multiset(h'.live) == multiset([o] + h.live)
    requires !Look(pm, o).isClosed && WellFilled(o, pm) && Unseen(o, Population(h))
    ensures DepthHalf(AddLevel(l, Bucket(IsMarket(o.oType), o.price), Unfulfilled(o, Look(pm, o))), h', pm)
  {
    var l' := AddLevel(l, Bucket(IsMarket(o.oType), o.price), Unfulfilled(o, Look(pm, o)));
    AddKeeps(l, h.live, pm, o);
    AgreesPermutes(l', [o] + h.live, h'.live, pm);
    assert multiset([o] + h.live) == multiset{o} + multiset(h.live);
    assert Population(h') == Population(h) + multiset{o};
    JoinTracked(h, h', pm, o);
  }

  /** Resting an open order keeps the agreement. */
  lemma RestKeepsDepth(b: Book, o: Order)
    requires DepthOk(b) && Arriving(b, o) && !Look(b.m.progress, o).isClosed && !HasMatch(b, o)
    ensures DepthOk(Rest(b, o))
  {
    hide Rest, ValidHalf, Agrees, WellFilled, AddLevel, Tracked, HasMatch, DepthOk;
    var us, s, pm, r := o.id.side, Opposite(o.id.side), b.m.progress, Rest(b, o);
    ValidOf(b);
    RestKeepsValid(b, o);
    RestLevels(b, o);
    RestQueues(b, o);
    RestHalves(b, o);
    DepthOkAt(b, us);
    DepthOkAt(b, s);
    JoinHalf(LevelOf(b.depth, us), b.Of(us), r.Of(us), pm, o);
    SameHalf(LevelOf(b.depth, s), b.Of(s), r.Of(s), pm);
    assert ValidHalf(us, r.Of(us)) && ValidHalf(s, r.Of(s));
    hide DepthHalf, Population;
    BothHalves(r, us);
  }

  /** A cancelled order that meets nobody enters the depth although nothing of it is for sale. */
  lemma ClosedRestBreaks(b: Book, o: Order)
    requires DepthOk(b) && Arriving(b, o) && Look(b.m.progress, o).isClosed && !HasMatch(b, o)
    requires Look(b.m.progress, o).fulfilled < o.quantity
    ensures !DepthOk(Rest(b, o))
  {
    var us, pm, r := o.id.side, b.m.progress, Rest(b, o);
    ValidOf(b);
    RestLevels(b, o);
    RestQueues(b, o);
    RestHalves(b, o);
    DepthOkAt(b, us);
    hide Rest, Valid, Arriving, Agrees, AddLevel;
    PhantomDisagrees(LevelOf(b.depth, us), b.Live(us), r.Live(us), pm, o);
    if DepthOk(r) {
      DepthOkAt(r, us);
    }
  }

  // -------------------------------------------------------------------------
  // A whole call
  // -------------------------------------------------------------------------

  /** Every fill of the call is answered honestly. */
  ghost predicate HonestCall(b: Book, o: Order, f: Desk)
    decreases |b.Live(Opposite(o.id.side))| + |b.Of(Opposite(o.id.side)).stops|
  {
    && HonestTurn(b, o, f)
    && (HasMatch(b, o) ==>
          var r := PlayRound(b, o, f);
          r.topDone && !r.done ==> HonestCall(r.b, o, f))
  }

  /** No turn of the call breaks the depth, and a cancelled order does not rest. */
  ghost predicate CallKeeps(b: Book, o: Order, f: Desk)
    decreases |b.Live(Opposite(o.id.side))| + |b.Of(Opposite(o.id.side)).stops|
  {
    if !HasMatch(b, o) then !Look(b.m.progress, o).isClosed
    else
      var r := PlayRound(b, o, f);
      KeepsDepth(b, o, f) && (r.topDone && !r.done ==> CallKeeps(r.b, o, f))
  }

  /** The depth is right after every turn of the call. */
  ghost predicate RightThroughout(b: Book, o: Order, f: Desk)
    decreases |b.Live(Opposite(o.id.side))| + |b.Of(Opposite(o.id.side)).stops|
  {
    if !HasMatch(b, o) then DepthOk(Rest(b, o))
    else
      var r := PlayRound(b, o, f);
      DepthOk(r.b) && (r.topDone && !r.done ==> RightThroughout(r.b, o, f))
  }

  /** An order cancelled before it is processed was not filled completely. */
  ghost predicate StillToFill(b: Book, o: Order) {
    Look(b.m.progress, o).fulfilled < o.quantity
  }

  /** For an incoming order open or cancelled, any dormant stop-losses and any honest fills: the depth
      equals the sum of the open quantities after every turn if and only if no turn breaks it; and then it
      does so at the end. */
  lemma {:induction false} ArrivalKeepsDepthIff(b: Book, o: Order, f: Desk)
    requires DepthOk(b) && HonestCall(b, o, f) && Arriving(b, o) && StillToFill(b, o)
    ensures RightThroughout(b, o, f) <==> CallKeeps(b, o, f)
    ensures CallKeeps(b, o, f) ==> DepthOk(Process(b, o, f).b)
    decreases |b.Live(Opposite(o.id.side))| + |b.Of(Opposite(o.id.side)).stops|
  {
    SoundOf(b);
    hide DepthOk, Arriving, HasMatch, HonestTurn, KeepsDepth, Rest, PlayRound;
    if !HasMatch(b, o) {
      RestIff(b, o);
    } else {
      var r := PlayRound(b, o, f);
      TurnKeepsDepthIff(b, o, f);
      TurnKeepsArriving(b, o, f);
      if r.topDone && !r.done && KeepsDepth(b, o, f) {
        StaysToFill(r.b, o);
        ArrivalKeepsDepthIff(r.b, o, f);
      }
    }
  }

  lemma RestIff(b: Book, o: Order)
    requires DepthOk(b) && Arriving(b, o) && !HasMatch(b, o) && StillToFill(b, o)
    ensures DepthOk(Rest(b, o)) <==> !Look(b.m.progress, o).isClosed
  {
    if Look(b.m.progress, o).isClosed {
      ClosedRestBreaks(b, o);
    } else {
      RestKeepsDepth(b, o);
    }
  }

  lemma StaysToFill(b: Book, o: Order)
    requires Arriving(b, o) && !Look(b.m.progress, o).isClosed
    ensures StillToFill(b, o)
  {
  }

  ghost predicate NoStops(b: Book) {
    forall s: Side :: b.Of(s).stops == []
  }

  /** Without dormant stop-losses a turn that breaks the depth is the last one. */
  lemma BreakingEnds(b: Book, o: Order, f: Desk)
    requires NoStops(b) && HasMatch(b, o) && !KeepsDepth(b, o, f)
    ensures !NextFill(b, o, f).traded && !PlayRound(b, o, f).topDone
  {
    RoundHalves(b, o, f);
    assert b.Of(Opposite(o.id.side)).stops == [];
    hide PlayRound, TopMatch, NextFill;
  }

  lemma TurnKeepsNoStops(b: Book, o: Order, f: Desk)
    requires NoStops(b) && HasMatch(b, o)
    ensures NoStops(PlayRound(b, o, f).b)
  {
    RoundHalves(b, o, f);
    assert b.Of(o.id.side).stops == [] && b.Of(Opposite(o.id.side)).stops == [];
    hide PlayRound, TopMatch, NextFill;
    forall s: Side ensures PlayRound(b, o, f).b.Of(s).stops == [] {
      assert s == o.id.side || s == Opposite(o.id.side);
    }
  }

  /** So then the depth equals the sum at the end if and only if no turn breaks it: each trades, or finds
      the counter-order closed, or closes it. */
  lemma {:induction false} ProcessKeepsDepthIff(b: Book, o: Order, f: Desk)
    requires DepthOk(b) && HonestCall(b, o, f) && Arriving(b, o) && StillToFill(b, o) && NoStops(b)
    ensures DepthOk(Process(b, o, f).b) <==> CallKeeps(b, o, f)
    decreases |b.Live(Opposite(o.id.side))| + |b.Of(Opposite(o.id.side)).stops|
  {
    SoundOf(b);
    hide DepthOk, Arriving, HasMatch, HonestTurn, KeepsDepth, Rest, PlayRound, NoStops;
    if !HasMatch(b, o) {
      RestIff(b, o);
    } else {
      var r := PlayRound(b, o, f);
      TurnKeepsDepthIff(b, o, f);
      TurnKeepsArriving(b, o, f);
      TurnKeepsNoStops(b, o, f);
      if !KeepsDepth(b, o, f) {
        BreakingEnds(b, o, f);
      } else if r.topDone && !r.done {
        StaysToFill(r.b, o);
        ProcessKeepsDepthIff(r.b, o, f);
      }
    }
  }

  // -------------------------------------------------------------------------
  // Loading
  // -------------------------------------------------------------------------

  /** An order loaded at start-up is open, and a stop-loss among them was never filled. */
  ghost predicate Loadable(b: Book, o: Order) {
    && WellFilled(o, b.m.progress) && !Look(b.m.progress, o).isClosed && Unseen(o, Population(b.Of(o.id.side)))
    && (o.oType == StopLoss ==> o.quantity > 0 && Look(b.m.progress, o).fulfilled == 0)
  }

  lemma LoadStopHalf(l: Level, h: Half, h': Half, pm: ProgressMap, o: Order)
    requires DepthHalf(l, h, pm) && h'.live == h.live && multiset(h'.stops) == multiset(h.stops) + multiset{o}
    requires o.oType == StopLoss && o.quantity > 0 && Look(pm, o).fulfilled == 0
    requires WellFilled(o, pm) && Unseen(o, Population(h))
    ensures DepthHalf(l, h', pm)
  {
    hide Population, Agrees;
    StopJoins(h, h', o);
    Seqs.SameMembers(h'.stops, [o], h.stops);
    JoinTracked(h, h', pm, Triggered(o));
  }

  lemma StopJoins(h: Half, h': Half, o: Order)
    requires h'.live == h.live && multiset(h'.stops) == multiset(h.stops) + multiset{o}
    ensures Population(h') == Population(h) + multiset{Triggered(o)}
  {
    assert multiset([o] + h.stops) == multiset(h'.stops);
    TriggeredAllContents([o] + h.stops, h'.stops);
    TriggeredAllConcat([o], h.stops);
    assert TriggeredAll([o]) == [Triggered(o)];
    hide TriggeredAll;
  }

  /** Loading an open order keeps the depth equal to the sum of open quantities. */
  lemma LoadKeepsDepth(b: Book, o: Order)
    requires DepthOk(b) && Loadable(b, o)
    ensures DepthOk(Load(b, o))
  {
    var r, s, pm := Load(b, o), o.id.side, b.m.progress;
    DepthOkAt(b, s);
    DepthOkAt(b, Opposite(s));
    Heap.PushRefines(LiveType(s), b.Live(s), o);
    Heap.PushRefines(StopType(s), b.Of(s).stops, o);
    if o.oType == StopLoss {
      LoadedStopValid(s, b.Of(s), o);
      LoadStopHalf(LevelOf(b.depth, s), b.Of(s), r.Of(s), pm, o);
    } else {
      PushHalf(s, b.Of(s), o);
      JoinHalf(LevelOf(b.depth, s), b.Of(s), r.Of(s), pm, o);
    }
    hide DepthHalf, ValidHalf, Heap.Push;
    BothHalves(r, s);
  }

  lemma LoadedStopValid(s: Side, h: Half, o: Order)
    requires ValidHalf(s, h) && o.oType == StopLoss && o.id.side == s
    ensures ValidHalf(s, h.(stops := Heap.Push(StopType(s), h.stops, o)))
  {
    Heap.PushRefines(StopType(s), h.stops, o);
    Seqs.SameMembers(Heap.Push(StopType(s), h.stops, o), h.stops, [o]);
  }

  // -------------------------------------------------------------------------
  // Cancelling
  // -------------------------------------------------------------------------

  function SetProgress(b: Book, id: OrderId, p: Progress): Book {
    b.(m := b.m.(progress := b.m.progress[id := p]))
  }

  lemma ProgressElsewhere(l: Level, h: Half, pm: ProgressMap, id: OrderId, p: Progress)
    requires DepthHalf(l, h, pm) && forall x :: x in Population(h) ==> x.id != id
    ensures DepthHalf(l, h, pm[id := p])
  {
    forall x | x in h.live ensures Look(pm[id := p], x) == Look(pm, x) { LiveInPopulation(h, x); }
    forall x | x in h.stops ensures Look(pm[id := p], x) == Look(pm, x) { StopInPopulation(h, x); }
    hide Population, Agrees;
    AgreesFrame(l, h.live, pm, pm[id := p]);
    TrackedElsewhere(h, pm, id, p);
  }

  lemma TrackedElsewhere(h: Half, pm: ProgressMap, id: OrderId, p: Progress)
    requires Tracked(h, pm) && forall x :: x in Population(h) ==> x.id != id
    requires forall x :: x in h.stops ==> Look(pm[id := p], x) == Look(pm, x)
    ensures Tracked(h, pm[id := p])
  {
    hide Population;
  }

  /** A queue with unique ids, split into one order and the rest. */
  lemma TakeOut(h: Half, o: Order) returns (q: seq<Order>)
    requires UniqueIds(Population(h)) && o in h.live
    ensures multiset(h.live) == multiset([o] + q)
    ensures forall x :: x in q ==> x in h.live && x.id != o.id
  {
    var i := Seqs.SplitAt(h.live, o);
    q := h.live[..i] + h.live[i + 1..];
    assert multiset([o] + q) == multiset{o} + multiset(q);
    OnceInLive(h, o);
    Seqs.SameMembers(h.live, [o], q);
    assert multiset(q)[o] == 0;
    forall x | x in q ensures x in h.live && x.id != o.id {
      if x.id == o.id { UniqueLive(h, x, o); }
    }
  }

  lemma CancelTracked(h: Half, pm: ProgressMap, id: OrderId, p: Progress)
    requires Tracked(h, pm) && p.isClosed
    requires forall x :: x in Population(h) && x.id == id ==> p.fulfilled <= x.quantity
    requires forall x :: x in h.stops && x.id == id ==> p.fulfilled == 0
    ensures Tracked(h, pm[id := p])
  {
  }

  lemma CancelAgrees(l: Level, h: Half, pm: ProgressMap, o: Order)
    requires DepthHalf(l, h, pm) && o in h.live && !Look(pm, o).isClosed
    ensures var p := Look(pm, o).(isClosed := true);
            Agrees(CloseLevel(l, Bucket(IsMarket(o.oType), o.price), Unfulfilled(o, p)), h.live, pm[o.id := p])
  {
    var p := Look(pm, o).(isClosed := true);
    var k, pm' := Bucket(IsMarket(o.oType), o.price), pm[o.id := p];
    var q := TakeOut(h, o);
    LiveInPopulation(h, o);
    AgreesPermutes(l, h.live, [o] + q, pm);
    ShrinkKeeps(l, q, pm, pm', o, Unfulfilled(o, p));
    AgreesPermutes(CloseLevel(l, k, Unfulfilled(o, p)), [o] + q, h.live, pm');
  }

  lemma CancelHalf(l: Level, h: Half, pm: ProgressMap, o: Order)
    requires DepthHalf(l, h, pm) && o in h.live && !Look(pm, o).isClosed
    ensures var p := Look(pm, o).(isClosed := true);
            DepthHalf(CloseLevel(l, Bucket(IsMarket(o.oType), o.price), Unfulfilled(o, p)), h, pm[o.id := p])
  {
    CancelAgrees(l, h, pm, o);
    LiveInPopulation(h, o);
    forall x | x in h.stops ensures x.id != o.id { StopsApart(h, o, x); }
    CancelTracked(h, pm, o.id, Look(pm, o).(isClosed := true));
  }

  lemma PopulationSides(b: Book, s: Side)
    requires Valid(b)
    ensures forall x :: x in Population(b.Of(s)) ==> x.id.side == s
  {
    assert ValidHalf(s, b.Of(s));
    forall x | x in Population(b.Of(s)) ensures x.id.side == s { PopulationSide(s, b.Of(s), x); }
  }

  /** Cancelling an open resting order keeps the agreement. */
  lemma CancelKeepsDepth(b: Book, o: Order)
    requires DepthOk(b) && o in b.Live(o.id.side) && !b.Progress(o).isClosed
    ensures DepthOk(CancelInBook(SetProgress(b, o.id, b.Progress(o).(isClosed := true)), o))
  {
    var p, us := b.Progress(o).(isClosed := true), o.id.side;
    var r := CancelInBook(SetProgress(b, o.id, p), o);
    DepthOkAt(b, us);
    DepthOkAt(b, Opposite(us));
    PopulationSides(b, Opposite(us));
    assert o.oType != StopLoss;
    assert ProgressOf(b.m, o.id) == Look(b.m.progress, o);
    assert LevelOf(r.depth, us) == CloseLevel(LevelOf(b.depth, us), Bucket(IsMarket(o.oType), o.price), Unfulfilled(o, p));
    assert LevelOf(r.depth, Opposite(us)) == LevelOf(b.depth, Opposite(us));
    CancelHalf(LevelOf(b.depth, us), b.Of(us), b.m.progress, o);
    ProgressElsewhere(LevelOf(b.depth, Opposite(us)), b.Of(Opposite(us)), b.m.progress, o.id, p);
    hide DepthHalf, ValidHalf, CloseLevel, Population;
    BothHalves(r, us);
  }

  /** While the book has not heard of a cancellation, as when its database transaction fails after the
      order was marked closed, the depth still counts the order. */
  lemma UntoldCancelBreaks(b: Book, o: Order)
    requires DepthOk(b) && o in b.Live(o.id.side) && !b.Progress(o).isClosed
    ensures !DepthOk(SetProgress(b, o.id, b.Progress(o).(isClosed := true)))
  {
    var us, p := o.id.side, Look(b.m.progress, o).(isClosed := true);
    var r, l, k := SetProgress(b, o.id, p), LevelOf(b.depth, o.id.side), Bucket(IsMarket(o.oType), o.price);
    DepthOkAt(b, us);
    LiveInPopulation(b.Of(us), o);
    CancelAgrees(l, b.Of(us), b.m.progress, o);
    OpenWeighs(o, b.Live(us), b.m.progress);
    assert Get(l.depth, k) == OpenQty(b.Live(us), b.m.progress, k);
    assert r.m.progress == b.m.progress[o.id := p] && r.Live(us) == b.Live(us) && r.depth == b.depth;
    OneLevelOnly(l, CloseLevel(l, k, Unfulfilled(o, p)), b.Live(us), b.m.progress, r.m.progress, k, Unfulfilled(o, p));
    hide SetProgress, Agrees, Population, ValidHalf;
    if DepthOk(r) {
      DepthOkAt(r, us);
    }
  }

  lemma OneLevelOnly(l: Level, l': Level, q: seq<Order>, pm: ProgressMap, pm': ProgressMap, k: nat, qty: nat)
    requires l' == CloseLevel(l, k, qty) && qty > 0 && Agrees(l, q, pm) && Agrees(l', q, pm') && Get(l.depth, k) > 0
    ensures !Agrees(l, q, pm')
  {
    assert Get(l'.depth, k) == OpenQty(q, pm', k) && Get(l'.depth, k) < Get(l.depth, k);
  }

  /** What cancelling a dormant stop does to the book: nothing but to its progress. */
  lemma StopCancelled(b: Book, o: Order)
    requires o.oType == StopLoss
    ensures var r := CancelInBook(SetProgress(b, o.id, b.Progress(o).(isClosed := true)), o);
            && r.depth == b.depth && r.ask == b.ask && r.bid == b.bid
            && r.m.progress == b.m.progress[o.id := Look(b.m.progress, o).(isClosed := true)]
  {
  }

  lemma BothHalves(b: Book, us: Side)
    requires ValidHalf(us, b.Of(us)) && DepthHalf(LevelOf(b.depth, us), b.Of(us), b.m.progress)
    requires var s := Opposite(us); ValidHalf(s, b.Of(s)) && DepthHalf(LevelOf(b.depth, s), b.Of(s), b.m.progress)
    ensures DepthOk(b)
  {
    hide ValidHalf, DepthHalf;
    forall s: Side ensures ValidHalf(s, b.Of(s)) && DepthHalf(LevelOf(b.depth, s), b.Of(s), b.m.progress) {
      assert s == us || s == Opposite(us);
    }
  }

  lemma CancelStopHalf(l: Level, h: Half, pm: ProgressMap, o: Order)
    requires DepthHalf(l, h, pm) && o in h.stops
    ensures DepthHalf(l, h, pm[o.id := Look(pm, o).(isClosed := true)])
  {
    var p := Look(pm, o).(isClosed := true);
    StopInPopulation(h, o);
    forall x | x in h.live ensures x.id != o.id { StopsApart(h, x, o); }
    hide Population, Agrees;
    AgreesFrame(l, h.live, pm, pm[o.id := p]);
    CancelTracked(h, pm, o.id, p);
  }

  /** Cancelling a dormant stop-loss keeps it too; the depth goes wrong when that stop is woken. */
  lemma CancelStopKeepsDepth(b: Book, o: Order)
    requires DepthOk(b) && o in b.Of(o.id.side).stops
    ensures DepthOk(CancelInBook(SetProgress(b, o.id, b.Progress(o).(isClosed := true)), o))
    ensures var r := CancelInBook(SetProgress(b, o.id, b.Progress(o).(isClosed := true)), o);
            forall price :: ShouldTrigger(price, o) ==> !NoneCancelled(r.Of(o.id.side), r.m.progress, price)
  {
    var us, s, pm, p := o.id.side, Opposite(o.id.side), b.m.progress, Look(b.m.progress, o).(isClosed := true);
    var r := CancelInBook(SetProgress(b, o.id, b.Progress(o).(isClosed := true)), o);
    DepthOkAt(b, us);
    DepthOkAt(b, s);
    PopulationSides(b, s);
    StopCancelled(b, o);
    hide CancelInBook, SetProgress, Population, DepthOk, ValidHalf;
    CancelStopHalf(LevelOf(b.depth, us), b.Of(us), pm, o);
    ProgressElsewhere(LevelOf(b.depth, s), b.Of(s), pm, o.id, p);
    hide DepthHalf;
    BothHalves(r, us);
    assert Look(r.m.progress, o).isClosed && r.Of(us).stops == b.Of(us).stops;
  }

  function EmptyBook(m: Models): Book {
    Book(Half([], []), Half([], []), Depth(Level(map[], map[]), Level(map[], map[]), [], []), m)
  }

  lemma EmptyBookAgrees(m: Models)
    ensures DepthOk(EmptyBook(m))
  {
    var b := EmptyBook(m);
    forall s: Side ensures ValidHalf(s, b.Of(s)) && DepthHalf(LevelOf(b.depth, s), b.Of(s), m.progress) {
    }
  }
}
