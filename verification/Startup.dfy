/** A restart of the server: the open orders are read from the tables, loaded into the book and matched
    against each other. */
module Startup {
  import opened Orders
  import opened Wrappers
  import opened State
  import opened Matching
  import opened BookTheorems
  import opened Uncrossed
  import opened DepthAgrees
  import opened DepthStops
  import opened DepthTurn
  import opened DepthRuns
  import opened ClearDepth
  import opened ClearRuns
  import opened Reservations
  import opened OrderLife
  import opened RealFills
  import opened Exchange
  import Accounts
  import ClearExisting
  import Heap
  import MarketRuns
  import Seqs

  /** Objects are read back from the tables, and asksMap and bidsMap hold the open ones. */
  function Reloaded(m: Models): Models {
    m.(progress := m.stored, entries := map id | id in m.stored :: if m.stored[id].isClosed then Missing else Shared)
  }

  /** Every open bid of the stock has its deposit. */
  ghost predicate OpenBidsCovered(m: Models, stockId: nat) {
    forall x :: x in m.orders && x.stockId == stockId && !Look(m.stored, x).isClosed ==> Covered(m, x)
  }

  /** A restart brings every order's objects together again, whatever failed before, and leaves the reserves
      as they are. */
  lemma RestartSyncs(m: Models, stockId: nat)
    requires OrdersOk(m)
    ensures OrdersOk(Reloaded(m)) && AllAttached(Reloaded(m)) && (Booked(m) ==> Booked(Reloaded(m)))
    ensures OpenBidsCovered(m, stockId) ==> AllSynced(Reloaded(m), stockId)
  {
    var r := Reloaded(m);
    forall x | x in r.orders
      ensures OrderOk(r, x) && Attached(r, x) && (OpenBidsCovered(m, stockId) && x.stockId == stockId ==> Synced(r, x))
    {
      assert OrderOk(m, x);
    }
  }

  /** An order whose row is closed is not loaded again: what it still held in reserve stays there, and
      cancellations of it stay refused in every run. */
  lemma LostForGood(m: Models, o: Order, ops: seq<Accounts.Op>, u: nat, budget: nat)
    requires o.id in m.stored && Look(m.stored, o).isClosed && LegalOps(Reloaded(m), ops)
    ensures var r := Accounts.RunOps(Reloaded(m), ops);
            Look(r.stored, o).isClosed && Accounts.Cancel(r, u, o, budget).error.Some?
  {
    OverStays(Reloaded(m), ops, o);
    hide LegalOps, Reloaded;
    OverCancelled(Accounts.RunOps(Reloaded(m), ops), o, u, budget);
  }

  // -------------------------------------------------------------------------
  // Loading
  // -------------------------------------------------------------------------

  function LoadAll(b: Book, xs: seq<Order>): Book
    decreases |xs|
  {
    if xs == [] then b else LoadAll(Load(b, xs[0]), xs[1..])
  }

  ghost predicate AllLoadable(b: Book, xs: seq<Order>) {
    && (forall x :: x in xs ==> Loadable(b, x))
    && (forall i, j :: 0 <= i < j < |xs| ==> xs[i].id != xs[j].id)
  }

  lemma LoadPopulation(b: Book, o: Order, s: Side, x: Order)
    requires DepthOk(b) && x in Population(Load(b, o).Of(s))
    ensures x in Population(b.Of(s)) || x.id == o.id
  {
    var h, h' := b.Of(s), Load(b, o).Of(s);
    DepthOkAt(b, s);
    if s == o.id.side {
      Heap.PushRefines(LiveType(s), h.live, o);
      Heap.PushRefines(StopType(s), h.stops, o);
      hide Heap.Push, Heap.IsHeap, DepthOk, DepthHalf, ValidHalf;
      JoinedPopulation(h, h', o, x);
    }
  }

  lemma JoinedPopulation(h: Half, h': Half, o: Order, x: Order)
    requires x in Population(h')
    requires multiset(h'.live) <= multiset(h.live) + multiset{o} && multiset(h'.stops) <= multiset(h.stops) + multiset{o}
    ensures x in Population(h) || x.id == o.id
  {
    assert x in multiset(h'.live) || x in multiset(TriggeredAll(h'.stops));
    if x in TriggeredAll(h'.stops) {
      var y := TriggeredMember(h'.stops, x);
      assert y in multiset(h'.stops);
      if y in h.stops {
        StopInPopulation(h, y);
      }
    } else if x in h.live {
      LiveInPopulation(h, x);
    }
  }

  lemma StillLoadable(b: Book, o: Order, x: Order)
    requires DepthOk(b) && Loadable(b, x) && x.id != o.id
    ensures Loadable(Load(b, o), x)
  {
    forall y | y in Population(Load(b, o).Of(x.id.side)) ensures y.id != x.id {
      LoadPopulation(b, o, x.id.side, y);
    }
    assert Load(b, o).m == b.m;
  }

  lemma LoadModels(b: Book, o: Order)
    ensures Load(b, o).m == b.m
  {
  }

  lemma LoadFirst(b: Book, xs: seq<Order>)
    requires DepthOk(b) && AllLoadable(b, xs) && xs != []
    ensures DepthOk(Load(b, xs[0])) && AllLoadable(Load(b, xs[0]), xs[1..]) && Load(b, xs[0]).m == b.m
  {
    hide DepthOk, Loadable, Load;
    LoadKeepsDepth(b, xs[0]);
    LoadModels(b, xs[0]);
    forall x | x in xs[1..] ensures Loadable(Load(b, xs[0]), x) {
      var j :| 0 <= j < |xs[1..]| && xs[1..][j] == x;
      assert xs[j + 1] == x && xs[0].id != xs[j + 1].id;
      StillLoadable(b, xs[0], x);
    }
  }

  /** Loading any list of open orders, stop-losses among them, keeps depth and book in agreement. */
  lemma {:induction false} LoadAllKeepsDepth(b: Book, xs: seq<Order>)
    requires DepthOk(b) && AllLoadable(b, xs)
    ensures DepthOk(LoadAll(b, xs)) && LoadAll(b, xs).m == b.m
    decreases |xs|
  {
    hide DepthOk, AllLoadable, Load;
    if xs != [] {
      LoadFirst(b, xs);
      LoadAllKeepsDepth(Load(b, xs[0]), xs[1..]);
    }
  }

  lemma {:induction false} LoadAllServed(b: Book, stockId: nat, xs: seq<Order>)
    requires MarketRuns.Served(b, stockId) && DepthOk(b) && AllLoadable(b, xs)
    requires forall x :: x in xs ==> x in b.m.orders && x.stockId == stockId
    ensures MarketRuns.Served(LoadAll(b, xs), stockId)
    decreases |xs|
  {
    hide DepthOk, Loadable, Load, MarketRuns.Served, MarketRuns.Asleep;
    if xs != [] {
      LoadFirst(b, xs);
      assert Loadable(b, xs[0]) && xs[0] in b.m.orders;
      assert MarketRuns.Asleep(b.m, xs[0]) by { RecordedAsleep(b.m, xs[0]); }
      MarketRuns.LoadServed(b, stockId, xs[0]);
      LoadAllServed(Load(b, xs[0]), stockId, xs[1..]);
    }
  }

  lemma RecordedAsleep(m: Models, x: Order)
    requires x in m.orders
    ensures MarketRuns.Asleep(m, x)
  {
  }

  /** The live queues hold what they held and the orders loaded, of their side. */
  lemma {:induction false} LoadAllMembers(b: Book, xs: seq<Order>, s: Side, x: Order)
    requires DepthOk(b) && AllLoadable(b, xs) && forall y :: y in xs ==> y.oType != StopLoss
    ensures x in LoadAll(b, xs).Live(s) <==> x in b.Live(s) || (x in xs && x.id.side == s)
    ensures NoStops(b) ==> NoStops(LoadAll(b, xs))
    decreases |xs|
  {
    hide DepthOk, AllLoadable, Load, NoStops;
    if xs != [] {
      LoadFirst(b, xs);
      LoadMembers(b, xs[0], s, x);
      LoadAllMembers(Load(b, xs[0]), xs[1..], s, x);
      assert xs == [xs[0]] + xs[1..];
    }
  }

  lemma LoadMembers(b: Book, o: Order, s: Side, x: Order)
    requires DepthOk(b) && o.oType != StopLoss
    ensures x in Load(b, o).Live(s) <==> x in b.Live(s) || (x == o && x.id.side == s)
    ensures NoStops(b) ==> NoStops(Load(b, o))
  {
    hide Heap.Push, Heap.IsHeap, DepthOk;
    var r, us := Load(b, o), o.id.side;
    DepthOkAt(b, us);
    Heap.PushRefines(LiveType(us), b.Live(us), o);
    if s == us {
      Seqs.SameMembers(r.Live(us), b.Live(us), [o]);
    }
    forall t: Side ensures r.Of(t).stops == b.Of(t).stops {}
  }

  /** xs are the open orders of the stock: resting ones, none of them a stop-loss. */
  ghost predicate OpenOrders(m: Models, stockId: nat, xs: seq<Order>) {
    && (forall x :: x in xs ==> Resting(m, stockId, x) && x.oType != StopLoss && !Look(m.progress, x).isClosed)
    && (forall x :: x in m.orders && x.stockId == stockId && !Look(m.progress, x).isClosed ==> x in xs)
    && (forall i, j :: 0 <= i < j < |xs| ==> xs[i].id != xs[j].id)
  }

  function Loaded(m: Models, xs: seq<Order>): Book {
    LoadAll(EmptyBook(m), xs)
  }

  /** Loading any list of recorded open orders, stop-losses among them, gives a book from which a server's run
      can start. */
  lemma LoadedServed(m: Models, stockId: nat, xs: seq<Order>)
    requires OrdersOk(m) && AllLoadable(EmptyBook(m), xs) && forall x :: x in xs ==> x in m.orders && x.stockId == stockId
    ensures MarketRuns.Served(Loaded(m, xs), stockId)
  {
    hide LoadAll, DepthOk, AllLoadable, Sound, Unit, WellFilled, Linked;
    var b := EmptyBook(m);
    EmptyBookAgrees(m);
    SoundOf(b);
    forall x | x in m.orders ensures x.id in m.stored && x.id in m.progress && x.userId in m.users { assert OrderOk(m, x); }
    assert MarketRuns.Tables(m);
    forall s: Side ensures MarketRuns.SideServed(b.Of(s), m, stockId) { assert b.Of(s) == Half([], []); }
    LoadAllServed(b, stockId, xs);
  }

  lemma OpenLoadable(m: Models, stockId: nat, xs: seq<Order>)
    requires Accounted(m, stockId) && OpenOrders(m, stockId, xs)
    ensures DepthOk(EmptyBook(m)) && AllLoadable(EmptyBook(m), xs) && forall y :: y in xs ==> y.oType != StopLoss
  {
    EmptyBookAgrees(m);
    hide DepthOk, Accounted, Loadable;
    forall x | x in xs ensures Loadable(EmptyBook(m), x) {
      RestingKnown(m, stockId, x);
      EmptyLoadable(m, x);
    }
  }

  lemma LoadedMembers(m: Models, stockId: nat, xs: seq<Order>, s: Side, x: Order)
    requires Accounted(m, stockId) && OpenOrders(m, stockId, xs)
    ensures x in Loaded(m, xs).Live(s) <==> x in xs && x.id.side == s
    ensures NoStops(Loaded(m, xs))
  {
    OpenLoadable(m, stockId, xs);
    assert NoStops(EmptyBook(m));
    assert EmptyBook(m).Live(s) == [];
    hide DepthOk, Accounted, AllLoadable, OpenOrders, NoStops, LoadAll;
    LoadAllMembers(EmptyBook(m), xs, s, x);
  }

  /** Loading all open orders, limit orders and market asks, gives a book whose depth is right and which mirrors
      the accounts. */
  lemma LoadedSettled(m: Models, stockId: nat, xs: seq<Order>)
    requires Accounted(m, stockId) && OpenOrders(m, stockId, xs)
    ensures Settled(Loaded(m, xs), stockId) && Loaded(m, xs).m == m
  {
    hide DepthOk, Accounted, AllLoadable, NoStops, LoadAll, Resting;
    var r := Loaded(m, xs);
    var any: Order :| true;
    OpenLoadable(m, stockId, xs);
    LoadAllKeepsDepth(EmptyBook(m), xs);
    LoadedMembers(m, stockId, xs, AskSide, any);
    forall x | x in r.ask.live || x in r.bid.live ensures Resting(r.m, stockId, x) {
      assert x in r.Live(AskSide) || x in r.Live(BidSide);
      LoadedMembers(m, stockId, xs, AskSide, x);
      LoadedMembers(m, stockId, xs, BidSide, x);
    }
    forall x | x in m.orders && x.stockId == stockId && x.id !in {} && !Look(m.progress, x).isClosed
      ensures x in r.Live(x.id.side)
    {
      LoadedMembers(m, stockId, xs, x.id.side, x);
    }
  }

  lemma EmptyLoadable(m: Models, x: Order)
    requires OrderOk(m, x) && Synced(m, x) && x.oType != StopLoss && !Look(m.progress, x).isClosed
    ensures Loadable(EmptyBook(m), x)
  {
  }

  // -------------------------------------------------------------------------
  // Clearing
  // -------------------------------------------------------------------------

  /** Signed cash is not negative throughout the clearing. */
  ghost predicate SmallClearing(b: Book, bid: Order)
    decreases |b.ask.live| + |b.ask.stops| + |b.bid.live| + |b.bid.stops|
  {
    && Small(b.m)
    && (Meets(b, bid) ==>
          var r := ClearRound(b, bid, RealFill());
          ClearExisting.GoesOn(r) ==> SmallClearing(r.b, r.next.value))
  }

  /** Orders of one side, open and resting. */
  ghost predicate OpenAndResting(m: Models, stockId: nat, xs: seq<Order>) {
    forall x :: x in xs ==> Resting(m, stockId, x) && !Look(m.progress, x).isClosed
  }

  ghost predicate DifferentUsers(asks: seq<Order>, bids: seq<Order>) {
    forall a, c :: a in asks && c in bids ==> a.userId != c.userId
  }

  /** The bids with the one held. */
  function Bids(b: Book, held: Option<Order>): seq<Order> {
    if held.Some? then [held.value] + b.bid.live else b.bid.live
  }

  /** Between turns: depth and queues, the held bid counted, are right, and nobody has orders on both sides. */
  ghost predicate Clearing(b: Book, stockId: nat, held: Option<Order>) {
    && ClearOk(b, held) && NoStops(b) && Accounted(b.m, stockId)
    && OpenAndResting(b.m, stockId, b.ask.live) && OpenAndResting(b.m, stockId, Bids(b, held))
    && DifferentUsers(b.ask.live, Bids(b, held))
    && (forall x :: x in b.m.orders && x.stockId == stockId && !Look(b.m.progress, x).isClosed
                    ==> x in b.ask.live || x in Bids(b, held))
    && (held.Some? ==> IsHeld(held.value) && NoneAbove(b, held.value))
  }

  lemma HeldRests(b: Book, stockId: nat, bid: Order)
    requires Clearing(b, stockId, Some(bid))
    ensures Resting(b.m, stockId, bid) && !Look(b.m.progress, bid).isClosed && IsHeld(bid) && Valid(b)
    ensures ClearOk(b, Some(bid)) && NoStops(b) && NoneAbove(b, bid)
    ensures forall a :: a in b.ask.live ==> a.userId != bid.userId
  {
    assert bid in Bids(b, Some(bid));
  }

  /** Nobody's own asks are skipped. */
  lemma NothingSkipped(b: Book, bid: Order)
    requires Valid(b) && forall a :: a in b.ask.live ==> a.userId != bid.userId
    ensures TopIn(b, AskSide, bid).1 == [] && TopIn(b, AskSide, bid).2 == b.ask.live
  {
    if b.ask.live != [] {
      assert b.ask.live[0] in b.ask.live;
    }
  }

  function ClearOp(b: Book, bid: Order): Accounts.Op
    requires Meets(b, bid)
  {
    var ask := TopIn(b, AskSide, bid).0.value;
    Accounts.FillOp(ask, bid, TradePrice(ask, bid, CurrentPrice(b.m, ask.stockId)),
                    TradeQty(ask, Look(b.m.progress, ask), bid, Look(b.m.progress, bid)), PLENTY)
  }

  lemma ClearFillIs(b: Book, bid: Order)
    requires Meets(b, bid)
    ensures var op := ClearOp(b, bid);
            && ClearFill(b, bid, RealFill()) == Accounts.Fill(b.m, op.ask, op.bid, op.price, op.qty, op.budget)
            && Accounts.Do(b.m, op) == ClearFill(b, bid, RealFill()).m && op.qty == ClearQty(b, bid)
            && op.FillOp? && op.ask == TopIn(b, AskSide, bid).0.value && op.bid == bid
  {
    hide TopIn, Accounts.Fill;
  }

  /** The ask the held bid meets. */
  lemma MetAsk(b: Book, stockId: nat, bid: Order)
    requires Clearing(b, stockId, Some(bid)) && Meets(b, bid)
    ensures var top := TopIn(b, AskSide, bid).0.value;
            && top in b.ask.live && top.id.side == AskSide && Resting(b.m, stockId, top)
            && !Look(b.m.progress, top).isClosed && top.userId != bid.userId && IsOrderMatching(top, bid)
  {
    HeldRests(b, stockId, bid);
    AsksBefore(b, bid);
    hide TopIn, ClearOk, Accounted;
  }

  /** Every turn of start-up matching over the real accounts trades and keeps the depth. */
  lemma ClearTurnGood(b: Book, stockId: nat, bid: Order)
    requires Clearing(b, stockId, Some(bid)) && Meets(b, bid) && Small(b.m)
    ensures var fill := ClearFill(b, bid, RealFill());
            && fill.traded && Legal(b.m, ClearOp(b, bid)) && fill.m == Accounts.Do(b.m, ClearOp(b, bid))
            && Accounted(fill.m, stockId) && fill.m.orders == b.m.orders && HonestClear(b, bid, RealFill())
  {
    HeldRests(b, stockId, bid);
    MetAsk(b, stockId, bid);
    ClearFillIs(b, bid);
    var ask := TopIn(b, AskSide, bid).0.value;
    RestingFill(b.m, stockId, ask, bid, CurrentPrice(b.m, ask.stockId));
    hide TopIn, Clearing, Accounted, Accounts.Fill, Legal, Honest, ClearFill, TradePrice, TradeQty, Resting, CanPay, Accounts.WritesNeeded;
    FillHonest(b.m, ask, bid, ClearOp(b, bid).price, ClearOp(b, bid).qty, PLENTY);
  }

  lemma PopsTop(b: Book, bid: Order, f: Desk)
    requires Valid(b) && NoStops(b) && Meets(b, bid) && forall a :: a in b.ask.live ==> a.userId != bid.userId
    ensures var r := ClearRound(b, bid, f);
            r.popped == (if r.askDone then [r.top] else []) && r.top == TopIn(b, AskSide, bid).0.value
  {
    var r := ClearRound(b, bid, f);
    assert r.top == TopIn(b, AskSide, bid).0.value;
    NotOvertaken(b, bid, f);
    hide TopIn, ClearExisting.ClearOvertaken, NoStops;
    if r.askDone {
      ClearExisting.ClearPopsFinishedIff(b, bid, f);
    }
  }

  lemma HeldInTurn(b: Book, stockId: nat, bid: Order)
    requires Clearing(b, stockId, Some(bid)) && Meets(b, bid)
    ensures InTurn(b, bid)
  {
    HeldRests(b, stockId, bid);
    InTurnIff(b, bid);
  }

  lemma PoppedIsClosed(b: Book, bid: Order, f: Desk)
    requires TopIn(b, AskSide, bid).0.Some? && InTurn(b, bid) && HonestClear(b, bid, f)
    requires var r := ClearRound(b, bid, f);
             r.popped == (if r.askDone then [r.top] else []) && r.top == TopIn(b, AskSide, bid).0.value
    ensures AllClosed(ClearRound(b, bid, f).popped, ClearRound(b, bid, f).b.m.progress)
  {
    ClearAnswered(b, bid, f);
    ClearRoundModels(b, bid, f);
    hide ClearRound, TopIn, ClearFill, InTurn, HonestClear;
  }

  /** What it pops is the ask it has filled. */
  lemma PopsFilledAsk(b: Book, stockId: nat, bid: Order)
    requires Clearing(b, stockId, Some(bid)) && Meets(b, bid) && Small(b.m)
    ensures var r := ClearRound(b, bid, RealFill());
            && r.popped == (if r.askDone then [r.top] else []) && r.top == TopIn(b, AskSide, bid).0.value
            && AllClosed(r.popped, r.b.m.progress) && InTurn(b, bid)
  {
    hide ClearRound, TopIn, ClearOk, ClearFill, HonestClear, Valid, InTurn, NoStops, Clearing, IsHeld, Legal, ClearOp, NoneAbove,
         Resting, Accounts.Do, Small, AllClosed;
    HeldRests(b, stockId, bid);
    HeldInTurn(b, stockId, bid);
    PopsTop(b, bid, RealFill());
    ClearTurnGood(b, stockId, bid);
    PoppedIsClosed(b, bid, RealFill());
  }

  lemma ClearTurnKeeps(b: Book, stockId: nat, bid: Order)
    requires Clearing(b, stockId, Some(bid)) && Meets(b, bid) && Small(b.m)
    ensures var r := ClearRound(b, bid, RealFill());
            ClearOk(r.b, r.next) && (r.askDone || r.bidDone) && NoStops(r.b)
            && (r.next.Some? ==> IsHeld(r.next.value) && NoneAbove(r.b, r.next.value))
  {
    HeldRests(b, stockId, bid);
    hide ClearRound, TopIn, ClearOk, Clearing, ClearFill, HonestClear, Valid, InTurn, NoStops, NoneAbove, ClearKeeps, PopsClosed,
         Legal, ClearOp, Accounts.Do, Small, Accounted, NoneCancelled, IsHeld;
    ClearTurnGood(b, stockId, bid);
    HeldInTurn(b, stockId, bid);
    NextIsHeld(b, bid, RealFill());
    NextIsBest(b, bid, RealFill());
    NoStopsNoneCancelled(b, bid, RealFill());
    PopsTheFilled(b, bid, RealFill());
    ClearKeepsIs(b, bid, RealFill());
    ClearTurnIff(b, bid, RealFill());
    KeepingFinishes(b, bid, RealFill());
  }

  lemma PopsTheFilled(b: Book, bid: Order, f: Desk)
    requires Valid(b) && NoStops(b) && Meets(b, bid) && forall a :: a in b.ask.live ==> a.userId != bid.userId
    ensures PopsClosed(b, bid, f)
  {
    NothingSkipped(b, bid);
    assert b.Of(AskSide).stops == [];
    hide TopIn;
  }

  lemma NotOvertaken(b: Book, bid: Order, f: Desk)
    requires Valid(b) && NoStops(b) && Meets(b, bid) && forall a :: a in b.ask.live ==> a.userId != bid.userId
    ensures !ClearExisting.ClearOvertaken(b, bid, f)
  {
    NothingSkipped(b, bid);
    assert b.Of(AskSide).stops == [];
    hide TopIn;
  }

  lemma NoStopsNoneCancelled(b: Book, bid: Order, f: Desk)
    requires NoStops(b) && Meets(b, bid)
    ensures var price := ClearExisting.TradedAt(b, bid, f).1;
            NoneCancelled(b.ask, b.m.progress, price) && NoneCancelled(b.bid, b.m.progress, price)
  {
    assert b.Of(AskSide).stops == [] && b.Of(BidSide).stops == [];
    hide TopIn;
  }

  function Gone(bid: Order, done: bool): seq<Order> {
    if done then [bid] else []
  }

  lemma ClearContents(b: Book, stockId: nat, bid: Order)
    requires Clearing(b, stockId, Some(bid)) && Meets(b, bid) && Small(b.m)
    ensures var r := ClearRound(b, bid, RealFill());
            && multiset(r.b.ask.live) + multiset(r.popped) == multiset(b.ask.live)
            && multiset(Bids(r.b, r.next)) + multiset(Gone(bid, r.bidDone)) == multiset(Bids(b, Some(bid)))
  {
    HeldRests(b, stockId, bid);
    hide ClearRound, TopIn, OtherAsks, ClearFill, NoStops, Valid, DepthStops.WokenOf, ClearOk, Accounted, OpenAndResting,
         DifferentUsers, NoneAbove;
    AsksBefore(b, bid);
    AsksAfter(b, bid, RealFill());
    BidsAfter(b, bid, RealFill());
    NoWoken(b, ClearExisting.TradedAt(b, bid, RealFill()).1);
    var r := ClearRound(b, bid, RealFill());
    assert Bids(r.b, r.next) == WithHeld(r.b.bid, r.next).live;
  }

  /** The queues after a turn: only the two orders traded with may leave, and those that are done do. */
  lemma ClearQueues(b: Book, stockId: nat, bid: Order, x: Order)
    requires Clearing(b, stockId, Some(bid)) && Meets(b, bid) && Small(b.m)
    ensures var r := ClearRound(b, bid, RealFill());
            && (x in r.b.ask.live ==> x in b.ask.live) && (x in Bids(r.b, r.next) ==> x in Bids(b, Some(bid)))
            && (x in b.ask.live ==> x in r.b.ask.live || (r.askDone && x == r.top))
            && (x in Bids(b, Some(bid)) ==> x in Bids(r.b, r.next) || (r.bidDone && x == bid))
  {
    hide ClearRound, TopIn, Clearing, Bids, Small;
    var r := ClearRound(b, bid, RealFill());
    ClearContents(b, stockId, bid);
    PopsFilledAsk(b, stockId, bid);
    Seqs.SameMembers(b.ask.live, r.b.ask.live, r.popped);
    Seqs.SameMembers(Bids(b, Some(bid)), Bids(r.b, r.next), Gone(bid, r.bidDone));
  }

  lemma NoWoken(b: Book, price: nat)
    requires NoStops(b)
    ensures TriggeredAll(DepthStops.WokenOf(AskSide, b.ask, price)) == [] == TriggeredAll(DepthStops.WokenOf(BidSide, b.bid, price))
  {
    assert b.Of(AskSide).stops == [] && b.Of(BidSide).stops == [];
  }

  lemma StopsEmpty(b: Book)
    requires NoStops(b)
    ensures b.ask.stops == [] && b.bid.stops == []
  {
    assert b.Of(AskSide).stops == [] && b.Of(BidSide).stops == [];
  }

  /** The two orders of a turn, and all others, afterwards. */
  lemma ClearProgress(b: Book, stockId: nat, bid: Order)
    requires Clearing(b, stockId, Some(bid)) && Meets(b, bid) && Small(b.m)
    ensures var r := ClearRound(b, bid, RealFill());
            && r.b.m == Accounts.Do(b.m, ClearOp(b, bid)) && Legal(b.m, ClearOp(b, bid)) && r.b.m.orders == b.m.orders
            && Accounted(r.b.m, stockId)
            && (r.askDone <==> Look(r.b.m.progress, r.top).isClosed) && (r.bidDone <==> Look(r.b.m.progress, bid).isClosed)
            && (forall x: Order :: x.id != r.top.id && x.id != bid.id ==> Look(r.b.m.progress, x) == Look(b.m.progress, x))
            && r.top in b.ask.live && r.top.id != bid.id
  {
    hide ClearRound, TopIn, Clearing, Accounted, ClearFill, HonestClear, Legal, ClearOp, InTurn, ClearQty, NoStops, Valid, ClearOk, NoneAbove,
         Small;
    HeldRests(b, stockId, bid);
    StopsEmpty(b);
    ClearTurnGood(b, stockId, bid);
    PopsFilledAsk(b, stockId, bid);
    BothInTurn(b, bid);
    ClearAnswered(b, bid, RealFill());
    ClearRoundModels(b, bid, RealFill());
  }

  /** Two resting orders with one id are one order. */
  lemma SameResting(m: Models, stockId: nat, x: Order, y: Order)
    requires Accounted(m, stockId) && Resting(m, stockId, x) && Resting(m, stockId, y) && x.id == y.id
    ensures x == y
  {
    SameId(m, x, y);
  }

  /** An order left in the queues is still open, and an open one is still there. */
  lemma ClearMember(b: Book, stockId: nat, bid: Order, x: Order)
    requires Clearing(b, stockId, Some(bid)) && Meets(b, bid) && Small(b.m)
    ensures var r := ClearRound(b, bid, RealFill());
            && (x in r.b.ask.live || x in Bids(r.b, r.next) ==> Resting(r.b.m, stockId, x))
            && (x in b.ask.live && !Look(r.b.m.progress, x).isClosed ==> x in r.b.ask.live)
            && (x in Bids(b, Some(bid)) && !Look(r.b.m.progress, x).isClosed ==> x in Bids(r.b, r.next))
  {
    hide ClearRound, TopIn, Accounted, ClearFill, Legal, ClearOp, ClearOk, NoStops, Bids;
    ClearQueues(b, stockId, bid, x);
    ClearProgress(b, stockId, bid);
  }

  /** No order that has been finished stays. */
  lemma LeftOpen(b: Book, stockId: nat, bid: Order, x: Order)
    requires Clearing(b, stockId, Some(bid)) && Meets(b, bid) && Small(b.m)
    ensures var r := ClearRound(b, bid, RealFill());
            x in r.b.ask.live || x in Bids(r.b, r.next) ==> !Look(r.b.m.progress, x).isClosed
  {
    var r := ClearRound(b, bid, RealFill());
    HeldRests(b, stockId, bid);
    ClearQueues(b, stockId, bid, x);
    ClearProgress(b, stockId, bid);
    GoneOnce(b, stockId, bid);
    hide ClearRound, TopIn, Accounted, ClearFill, Legal, ClearOp, ClearOk, NoStops, Bids, Accounts.Do;
    if x in r.b.ask.live || x in Bids(r.b, r.next) {
      assert Resting(b.m, stockId, x) && !Look(b.m.progress, x).isClosed;
      if x.id == r.top.id { SameResting(b.m, stockId, x, r.top); }
      if x.id == bid.id { SameResting(b.m, stockId, x, bid); }
    }
  }

  /** The finished orders were there once, and are gone. */
  lemma GoneOnce(b: Book, stockId: nat, bid: Order)
    requires Clearing(b, stockId, Some(bid)) && Meets(b, bid) && Small(b.m)
    ensures var r := ClearRound(b, bid, RealFill());
            && (r.askDone ==> r.top !in r.b.ask.live && r.top !in Bids(r.b, r.next))
            && (r.bidDone ==> bid !in r.b.ask.live && bid !in Bids(r.b, r.next))
  {
    hide ClearRound, TopIn, Clearing, NoStops, ClearOk, Bids, Small, InTurn;
    var r := ClearRound(b, bid, RealFill());
    ClearContents(b, stockId, bid);
    PopsFilledAsk(b, stockId, bid);
    ClearTurnKeeps(b, stockId, bid);
    QueueSides(r.b, r.next);
    AskOnce(b, bid);
    BothInTurn(b, bid);
    OnceGone(b.ask.live, r.b.ask.live, r.popped);
    OnceGone(Bids(b, Some(bid)), Bids(r.b, r.next), Gone(bid, r.bidDone));
  }

  lemma OnceGone(q: seq<Order>, q': seq<Order>, out: seq<Order>)
    requires multiset(q') + multiset(out) == multiset(q) && |out| <= 1
    requires out != [] ==> multiset(q)[out[0]] == 1
    ensures out != [] ==> out[0] !in q'
  {
    if out != [] {
      assert out == [out[0]];
      assert multiset(q')[out[0]] == 0;
    }
  }

  lemma QueueSides(b: Book, held: Option<Order>)
    requires ClearOk(b, held) && (held.Some? ==> held.value.id.side == BidSide)
    ensures forall x :: x in b.ask.live ==> x.id.side == AskSide
    ensures forall x :: x in Bids(b, held) ==> x.id.side == BidSide
  {
    assert ValidHalf(AskSide, b.Of(AskSide)) && ValidHalf(BidSide, b.Of(BidSide));
  }

  lemma AskOnce(b: Book, bid: Order)
    requires InTurn(b, bid)
    ensures forall x :: x in b.ask.live ==> multiset(b.ask.live)[x] == 1
    ensures multiset(Bids(b, Some(bid)))[bid] == 1
  {
    InTurnTracked(b, bid);
    var h := WithHeld(b.bid, Some(bid));
    assert h.live == Bids(b, Some(bid));
    hide InTurn, TopIn, Population;
    forall x | x in b.ask.live ensures multiset(b.ask.live)[x] == 1 { OnceInLive(b.ask, x); }
    OnceInLive(h, bid);
  }

  lemma TurnMember(b: Book, stockId: nat, bid: Order, x: Order)
    requires Clearing(b, stockId, Some(bid)) && Meets(b, bid) && Small(b.m)
    ensures var r := ClearRound(b, bid, RealFill());
            && (x in r.b.ask.live ==> x in b.ask.live) && (x in Bids(r.b, r.next) ==> x in Bids(b, Some(bid)))
            && (x in r.b.ask.live || x in Bids(r.b, r.next)
                ==> Resting(r.b.m, stockId, x) && !Look(r.b.m.progress, x).isClosed)
            && (x in r.b.m.orders && x.stockId == stockId && !Look(r.b.m.progress, x).isClosed
                ==> x in r.b.ask.live || x in Bids(r.b, r.next))
  {
    hide ClearRound, TopIn, Clearing, Bids, Small, Resting, Legal, Accounts.Do, ClearOp;
    var r := ClearRound(b, bid, RealFill());
    ClearQueues(b, stockId, bid, x);
    ClearMember(b, stockId, bid, x);
    LeftOpen(b, stockId, bid, x);
    ClearProgress(b, stockId, bid);
    if x in r.b.m.orders && x.stockId == stockId && !Look(r.b.m.progress, x).isClosed {
      OpenBefore(b, stockId, bid, x);
    }
  }

  /** A turn leaves everything ready for the next. */
  lemma ClearGoesOn(b: Book, stockId: nat, bid: Order)
    requires Clearing(b, stockId, Some(bid)) && Meets(b, bid) && Small(b.m)
    ensures var r := ClearRound(b, bid, RealFill()); Clearing(r.b, stockId, r.next) && (r.askDone || r.bidDone)
  {
    assert DifferentUsers(b.ask.live, Bids(b, Some(bid)));
    hide ClearRound, TopIn, ClearOk, Accounted, NoStops, Legal, ClearOp, Accounts.Do, NoneAbove, Bids, Resting, Clearing, Small;
    var r := ClearRound(b, bid, RealFill());
    ClearTurnKeeps(b, stockId, bid);
    ClearProgress(b, stockId, bid);
    forall x { TurnMember(b, stockId, bid, x); }
    ClearingIs(r.b, stockId, r.next);
  }

  lemma ClearingIs(b: Book, stockId: nat, held: Option<Order>)
    requires ClearOk(b, held) && NoStops(b) && Accounted(b.m, stockId) && DifferentUsers(b.ask.live, Bids(b, held))
    requires forall x :: x in b.ask.live || x in Bids(b, held) ==> Resting(b.m, stockId, x) && !Look(b.m.progress, x).isClosed
    requires forall x :: x in b.m.orders && x.stockId == stockId && !Look(b.m.progress, x).isClosed
                         ==> x in b.ask.live || x in Bids(b, held)
    requires held.Some? ==> IsHeld(held.value) && NoneAbove(b, held.value)
    ensures Clearing(b, stockId, held)
  {
    hide ClearOk, NoStops, Accounted, Bids, Resting, NoneAbove;
  }

  lemma OpenBefore(b: Book, stockId: nat, bid: Order, x: Order)
    requires Clearing(b, stockId, Some(bid)) && Meets(b, bid) && Small(b.m) && x in b.m.orders && x.stockId == stockId
    requires !Look(ClearRound(b, bid, RealFill()).b.m.progress, x).isClosed
    ensures x in b.ask.live || x in Bids(b, Some(bid))
  {
    var r := ClearRound(b, bid, RealFill());
    ClearProgress(b, stockId, bid);
    HeldRests(b, stockId, bid);
    hide ClearRound, TopIn, ClearOk, NoStops, Legal, ClearOp, Accounts.Do, NoneAbove;
    assert Look(b.m.progress, x).isClosed ==> x.id != r.top.id && x.id != bid.id by {
      assert !Look(b.m.progress, r.top).isClosed && !Look(b.m.progress, bid).isClosed;
    }
  }

  lemma EndUncrossed(b: Book, stockId: nat, bid: Order)
    requires Clearing(b, stockId, Some(bid)) && !Meets(b, bid)
    ensures IsUncrossed(PutBack(b, bid))
  {
    HeldRests(b, stockId, bid);
    assert NoneAbove(b, bid);
    hide PutBack, ClearOk, Accounted, TopIn, Crossing, NoStops, OpenAndResting, DifferentUsers, Valid;
    forall ask, c ensures !Crossing(PutBack(b, bid), ask, c) {
      if Crossing(PutBack(b, bid), ask, c) {
        PutBackSeesOthers(b, bid, ask, c);
        PutBackMember(b, bid, ask, c);
        if c == bid { LessIsStrictWeakOrder(LiveType(BidSide), bid, bid, bid); }
      }
    }
  }

  /** The end: the held bid goes back. */
  lemma ClearEnds(b: Book, stockId: nat, bid: Order)
    requires Clearing(b, stockId, Some(bid)) && !Meets(b, bid)
    ensures InOrder(PutBack(b, bid), stockId)
  {
    HeldRests(b, stockId, bid);
    hide PutBack, ClearOk, Accounted, DepthOk, Valid, ValidHalf, Crossing, IsUncrossed, TopIn, OpenAndResting, DifferentUsers, Bids,
         NoneAbove, BookMirrors;
    EndUncrossed(b, stockId, bid);
    PutBackContents(b, bid);
    PutBackKeepsDepth(b, bid);
    BidsHeld(b, bid);
    EndMirrors(b, PutBack(b, bid), stockId, Some(bid));
    SameNoStops(b, PutBack(b, bid));
  }

  lemma BidsHeld(b: Book, bid: Order)
    ensures Bids(b, Some(bid)) == [bid] + b.bid.live
  {
  }

  lemma SameNoStops(b: Book, r: Book)
    requires NoStops(b) && r.ask.stops == b.ask.stops && r.bid.stops == b.bid.stops
    ensures NoStops(r)
  {
    forall s: Side ensures r.Of(s).stops == [] { assert b.Of(s).stops == []; }
  }

  lemma PutBackMember(b: Book, bid: Order, ask: Order, c: Order)
    requires Valid(b) && IsHeld(bid) && Crossing(PutBack(b, bid), ask, c)
    ensures ask in b.ask.live && (c == bid || c in b.bid.live)
  {
    var r := PutBack(b, bid);
    PutBackContents(b, bid);
    hide PutBack;
    Seqs.SameMembers(r.ask.live, b.ask.live, []);
    Seqs.SameMembers(r.bid.live, [bid], b.bid.live);
  }

  lemma EndMirrors(b: Book, r: Book, stockId: nat, held: Option<Order>)
    requires Clearing(b, stockId, held) && r.m == b.m
    requires multiset(r.ask.live) == multiset(b.ask.live) && multiset(r.bid.live) == multiset(Bids(b, held))
    ensures BookMirrors(r, stockId, {})
  {
    QueueSides(b, held);
    hide ClearOk, Accounted, Bids, NoStops, NoneAbove, DifferentUsers, Resting, IsHeld;
    forall x { SameSet(r.ask.live, b.ask.live, x); }
    forall x { SameSet(r.bid.live, Bids(b, held), x); }
    MirrorsOf(r, stockId);
  }

  lemma MirrorsOf(r: Book, stockId: nat)
    requires forall x :: x in r.ask.live ==> x.id.side == AskSide && Resting(r.m, stockId, x)
    requires forall x :: x in r.bid.live ==> x.id.side == BidSide && Resting(r.m, stockId, x)
    requires forall x :: x in r.m.orders && x.stockId == stockId && !Look(r.m.progress, x).isClosed
                         ==> x in r.ask.live || x in r.bid.live
    ensures BookMirrors(r, stockId, {})
  {
    hide Resting, Look;
  }

  lemma SameSet(q: seq<Order>, q': seq<Order>, x: Order)
    requires multiset(q) == multiset(q')
    ensures x in q <==> x in q'
  {
    assert x in q <==> x in multiset(q);
    assert x in q' <==> x in multiset(q');
  }

  lemma BidsGone(b: Book, stockId: nat)
    requires Clearing(b, stockId, None) && b.bid.live == []
    ensures InOrder(b, stockId)
  {
    NoBidHeld(b);
    EndMirrors(b, b, stockId, None);
  }

  lemma NextNone(b: Book, bid: Order, f: Desk)
    requires Meets(b, bid) && ClearRound(b, bid, f).next.None?
    ensures ClearRound(b, bid, f).b.bid.live == []
  {
    ClearExisting.ClearHalves(b, bid, f);
    hide ClearRound, TopIn;
  }

  /** Start-up matching of such orders over the real accounts, nobody having orders on both sides, leaves
      everything in order, by a run of legal operations. */
  lemma {:induction false} ClearingSettles(b: Book, stockId: nat, bid: Order) returns (ops: seq<Accounts.Op>)
    requires Clearing(b, stockId, Some(bid)) && SmallClearing(b, bid)
    ensures InOrder(ClearLoop(b, bid, RealFill()).b, stockId)
    ensures LegalOps(b.m, ops) && Accounts.RunOps(b.m, ops) == ClearLoop(b, bid, RealFill()).b.m
    decreases |b.ask.live| + |b.ask.stops| + |b.bid.live| + |b.bid.stops|
  {
    hide ClearLoop, ClearRound, Clearing, InOrder, PutBack, Accounts.Do, ClearOp, Legal, TopIn;
    LoopEnds(b, bid, RealFill());
    ops := [];
    if !Meets(b, bid) {
      ClearEnds(b, stockId, bid);
      assert PutBack(b, bid).m == b.m by { PutBackModels(b, bid); }
    } else {
      var r := ClearRound(b, bid, RealFill());
      ClearGoesOn(b, stockId, bid);
      ClearProgress(b, stockId, bid);
      if r.next.Some? {
        ops := ClearingSettles(r.b, stockId, r.next.value);
      } else {
        NextNone(b, bid, RealFill());
        BidsGone(r.b, stockId);
      }
      ops := FirstOp(b.m, ClearOp(b, bid), ops);
    }
  }

  lemma PutBackModels(b: Book, bid: Order)
    ensures PutBack(b, bid).m == b.m
  {
  }

  /** Nobody has open orders on both sides. */
  ghost predicate NobodyOnBothSides(xs: seq<Order>) {
    forall a, c :: a in xs && c in xs && a.id.side == AskSide && c.id.side == BidSide ==> a.userId != c.userId
  }

  /** The book at start-up: the open orders xs loaded from the tables and matched against each other. */
  function Started(m: Models, xs: seq<Order>): Book {
    Matching.ClearExisting(Loaded(Reloaded(m), xs), RealFill()).b
  }

  /** What clearing begins with. */
  function FirstHeld(b: Book): (r: (Book, Order))
    requires b.bid.live != []
  {
    (b.SetLive(BidSide, Heap.Pop(LiveType(BidSide), b.bid.live)), b.bid.live[0])
  }

  lemma FirstHeldMembers(m: Models, stockId: nat, xs: seq<Order>, x: Order)
    requires Accounted(m, stockId) && OpenOrders(m, stockId, xs) && Loaded(m, xs).bid.live != []
    ensures var (b, bid) := FirstHeld(Loaded(m, xs));
            && (x in b.ask.live <==> x in xs && x.id.side == AskSide)
            && (x in Bids(b, Some(bid)) <==> x in xs && x.id.side == BidSide)
  {
    var b := Loaded(m, xs);
    var (b1, bid) := FirstHeld(b);
    LoadedSettled(m, stockId, xs);
    DepthOkAt(b, BidSide);
    Heap.PopRefines(LiveType(BidSide), b.bid.live);
    hide Loaded, Heap.Pop, Heap.IsHeap, DepthOk, Accounted, DepthHalf, ValidHalf, OpenOrders, Settled;
    Seqs.SameMembers(b.bid.live, b1.bid.live, [bid]);
    LoadedMembers(m, stockId, xs, AskSide, x);
    LoadedMembers(m, stockId, xs, BidSide, x);
  }

  lemma FirstHeldBest(b: Book)
    requires DepthOk(b) && NoStops(b) && b.bid.live != []
    ensures var (b1, bid) := FirstHeld(b); NoneAbove(b1, bid) && NoStops(b1) && b1.m == b.m
  {
    var (b1, bid) := FirstHeld(b);
    ValidOf(b);
    BeginsWithBest(b);
    hide Heap.Pop, Heap.IsHeap, DepthOk, Valid, NoneAbove;
    SameNoStops(b, b1);
  }

  lemma StartsClearing(m: Models, stockId: nat, xs: seq<Order>)
    requires Accounted(m, stockId) && OpenOrders(m, stockId, xs) && NobodyOnBothSides(xs)
    requires Loaded(m, xs).bid.live != []
    ensures var (b, bid) := FirstHeld(Loaded(m, xs)); Clearing(b, stockId, Some(bid)) && b.m == m
  {
    hide Loaded, Heap.Pop, DepthOk, ClearOk, Accounted, Resting, Bids, NoneAbove, NoStops, BookMirrors;
    var b := Loaded(m, xs);
    var (b1, bid) := FirstHeld(b);
    LoadedSettled(m, stockId, xs);
    ClearingBegins(b);
    FirstHeldBest(b);
    forall x { FirstHeldMembers(m, stockId, xs, x); }
    ClearingIs(b1, stockId, Some(bid));
  }

  /** A server restarted on tables whose reserves are right, whatever had come apart in memory, and whose open
      orders are limit orders or market asks, is in order once these are loaded and matched, unless someone has
      orders on both sides or a debt. */
  lemma StartsInOrder(m: Models, stockId: nat, xs: seq<Order>) returns (ops: seq<Accounts.Op>)
    requires Booked(m) && OpenBidsCovered(m, stockId) && OpenOrders(Reloaded(m), stockId, xs) && NobodyOnBothSides(xs)
    requires var b := Loaded(Reloaded(m), xs);
             b.bid.live != [] ==> SmallClearing(FirstHeld(b).0, FirstHeld(b).1)
    ensures InOrder(Started(m, xs), stockId)
    ensures LegalOps(Reloaded(m), ops) && Accounts.RunOps(Reloaded(m), ops) == Started(m, xs).m
  {
    RestartSyncs(m, stockId);
    var b := Loaded(Reloaded(m), xs);
    LoadedSettled(Reloaded(m), stockId, xs);
    ops := [];
    if b.bid.live == [] {
      hide Reloaded, Loaded, Booked, AllSynced;
      assert IsUncrossed(b);
    } else {
      hide Reloaded, Loaded, Booked, AllSynced, Clearing, SmallClearing, ClearLoop, InOrder;
      StartsClearing(Reloaded(m), stockId, xs);
      ops := ClearingSettles(FirstHeld(b).0, stockId, FirstHeld(b).1);
    }
  }
}
