/** What happens to an order after it is placed: its object in the queue, its row, and the object that
    cancellations find. */
module OrderLife {
  import opened Words
  import opened Orders
  import opened Wrappers
  import opened State
  import opened Accounts
  import opened Reservations

  // -------------------------------------------------------------------------
  // The object in the queue
  // -------------------------------------------------------------------------

  /** An order only ever gets filled further, and once closed nothing changes. */
  ghost predicate Advances(p: Progress, p': Progress) {
    p.fulfilled <= p'.fulfilled && (p.isClosed ==> p' == p)
  }

  ghost predicate AllAdvance(m: Models, m': Models) {
    forall id :: id in m.progress ==> id in m'.progress && Advances(m.progress[id], m'.progress[id])
  }

  lemma NothingAdvances(m: Models, m': Models)
    requires m'.progress == m.progress
    ensures AllAdvance(m, m')
  {
  }

  lemma TradeAdvances(m: Models, a: Order, b: Order, price: nat, qty: nat, budget: nat)
    requires a.id != b.id && Fill(m, a, b, price, qty, budget).traded
    ensures AllAdvance(m, Fill(m, a, b, price, qty, budget).m)
  {
    TradeShape(m, a, b, price, qty, budget);
    hide Fill, TradeRows, CashLeft;
  }

  lemma FillAdvances(m: Models, a: Order, b: Order, price: nat, qty: nat, budget: nat)
    requires a.id != b.id
    ensures AllAdvance(m, Fill(m, a, b, price, qty, budget).m)
  {
    hide Fill, CashLeft, AllAdvance;
    var r := Fill(m, a, b, price, qty, budget);
    if r.traded {
      TradeAdvances(m, a, b, price, qty, budget);
    } else if r.bid == Done {
      CloseAdvances(m, a, b, price, qty, budget);
    } else {
      NoFill(m, a, b, price, qty, budget);
      hide HalfCloses;
      NothingAdvances(m, r.m);
    }
  }

  lemma CloseAdvances(m: Models, a: Order, b: Order, price: nat, qty: nat, budget: nat)
    requires a.id != b.id
    requires var r := Fill(m, a, b, price, qty, budget); !r.traded && r.bid == Done
    ensures AllAdvance(m, Fill(m, a, b, price, qty, budget).m)
  {
    hide Fill, CashLeft, Refund;
    ClosedShape(m, a, b, price, qty, budget);
  }

  /** Placing adds a fresh object and row, or a fresh object, or nothing. */
  ghost predicate Adds(m: Models, m': Models, o: Order) {
    || (m'.progress == m.progress && m'.stored == m.stored && m'.entries == m.entries && m'.orders == m.orders)
    || (m'.progress == m.progress[o.id := Progress(0, false)]
        && ((m'.stored == m.stored && m'.orders == m.orders
             && (m'.entries == m.entries[o.id := Shared] || m'.entries == m.entries[o.id := Missing]))
            || (m'.stored == m.stored[o.id := Progress(0, false)] && m'.orders == m.orders + [o]
                && m'.entries == m.entries[o.id := Shared])))
  }

  lemma BidAdds(m: Models, o: Order, fee: nat, budget: nat)
    ensures Adds(m, PlaceBid(m, o, fee, budget).m, o)
  {
    hide BidError, OrderPrice, Wrap64, Row;
  }

  lemma AskAdds(m: Models, o: Order, fee: nat, budget: nat)
    ensures Adds(m, PlaceAsk(m, o, fee, budget).m, o)
  {
    hide AskPlaced, PriceError, ActiveLends, Available, ShortSellQty;
    if PlaceAsk(m, o, fee, budget).recorded {
      AskPlacedIs(m, o, fee, ShortSellQty(m, o));
    }
  }

  lemma AddingAdvances(m: Models, m': Models, o: Order)
    requires Adds(m, m', o) && o.id !in m.progress
    ensures AllAdvance(m, m')
  {
  }

  lemma CancelAdvances(m: Models, u: nat, o: Order, budget: nat)
    ensures AllAdvance(m, Accounts.Cancel(m, u, o, budget).m)
  {
    hide CancelOpen, Seen;
    if u in m.users && Findable(m, o) && o.userId == u && !Seen(m, o).isClosed {
      CancelOpenShape(m, o, budget);
    }
  }

  lemma StepAdvances(m: Models, op: Op)
    requires Legal(m, op)
    ensures AllAdvance(m, Do(m, op))
  {
    hide PlaceBid, PlaceAsk, Fill, Accounts.Cancel, BuyFromExchange, PerformMortgage, SquareOff, Known, Foreign, AllAdvance, Adds;
    match op
    case PlaceBidOp(o, fee, budget) =>
      BidAdds(m, o, fee, budget);
      AddingAdvances(m, Do(m, op), o);
    case PlaceAskOp(o, fee, budget) =>
      AskAdds(m, o, fee, budget);
      AddingAdvances(m, Do(m, op), o);
    case FillOp(a, b, price, qty, budget) => FillAdvances(m, a, b, price, qty, budget);
    case CancelOp(u, o, budget) => CancelAdvances(m, u, o, budget);
    case BuyOp(u, s, qty, budget) =>
      BuyLeavesOrders(m, u, s, qty, budget);
      NothingAdvances(m, Do(m, op));
    case MortgageOp(u, s, qty, price, budget) =>
      MortgageLeavesOrders(m, u, s, qty, price, budget);
      NothingAdvances(m, Do(m, op));
    case SquareOffOp(i) =>
      if i < |m.lends| { SquareOffLeavesOrders(m, i); }
      NothingAdvances(m, Do(m, op));
    case WakeOp(o, budget) => NothingAdvances(m, Do(m, op));
  }

  /** Once the order in the queue is closed, no later operation of any run changes how much of it was
      filled or reopens it. */
  lemma {:induction false} QueueClosedIsFinal(m: Models, ops: seq<Op>, id: OrderId)
    requires LegalOps(m, ops) && id in m.progress && m.progress[id].isClosed
    ensures id in RunOps(m, ops).progress && RunOps(m, ops).progress[id] == m.progress[id]
    decreases |ops|
  {
    if ops != [] {
      StepAdvances(m, ops[0]);
      QueueClosedIsFinal(Do(m, ops[0]), ops[1..], id);
    }
  }

  // -------------------------------------------------------------------------
  // The row
  // -------------------------------------------------------------------------

  /** The step writes over the row of a closed order: a trade with an order that is open in the queue, a
      cancellation that acts on an outdated copy, or the waking of an order that is open in the queue. */
  ghost predicate Rewrites(m: Models, op: Op, x: Order) {
    match op
    case FillOp(a, b, price, qty, budget) => (a.id == x.id || b.id == x.id) && Trades(m, a, b, price, qty, budget)
    case CancelOp(u, o, budget) => o == x && Outdates(m, op)
    case WakeOp(o, budget) => o == x && budget > 0 && !Look(m.progress, x).isClosed
    case _ => false
  }

  lemma TradeRewritesIff(m: Models, a: Order, b: Order, price: nat, qty: nat, budget: nat, x: Order)
    requires OrderOk(m, x) && Fill(m, a, b, price, qty, budget).traded && a.id != b.id
    ensures Look(Fill(m, a, b, price, qty, budget).m.stored, x) == Look(m.stored, x) <==> a.id != x.id && b.id != x.id
  {
    TradeShape(m, a, b, price, qty, budget);
    hide Fill, TradeRows, CashLeft, Portion, Unit;
  }

  lemma NoTradeRewritesIff(m: Models, a: Order, b: Order, price: nat, qty: nat, budget: nat, x: Order)
    requires OrderOk(m, x) && Look(m.stored, x).isClosed && !Fill(m, a, b, price, qty, budget).traded && a.id != b.id
    ensures Look(Fill(m, a, b, price, qty, budget).m.stored, x) == Look(m.stored, x)
  {
    if Fill(m, a, b, price, qty, budget).bid == Done {
      ClosedShape(m, a, b, price, qty, budget);
    } else {
      NoFill(m, a, b, price, qty, budget);
    }
    hide Fill, CashLeft, Refund, HalfCloses, Unit;
  }

  lemma FillRewritesIff(m: Models, a: Order, b: Order, price: nat, qty: nat, budget: nat, x: Order)
    requires OrderOk(m, x) && Look(m.stored, x).isClosed && a.id != b.id
    ensures Look(Fill(m, a, b, price, qty, budget).m.stored, x) == Look(m.stored, x)
            <==> !Rewrites(m, FillOp(a, b, price, qty, budget), x)
  {
    hide Unit, WellFilled, OrderOk, Fill, Trades, ClosesShort;
    FillGuards(m, a, b, price, qty, budget);
    if Fill(m, a, b, price, qty, budget).traded {
      TradeRewritesIff(m, a, b, price, qty, budget, x);
    } else {
      NoTradeRewritesIff(m, a, b, price, qty, budget, x);
    }
  }

  lemma CancelRewritesIff(m: Models, u: nat, o: Order, budget: nat, x: Order)
    requires OrdersOk(m) && x in m.orders && Look(m.stored, x).isClosed && Legal(m, CancelOp(u, o, budget))
    ensures Look(Accounts.Cancel(m, u, o, budget).m.stored, x) == Look(m.stored, x)
            <==> !Rewrites(m, CancelOp(u, o, budget), x)
  {
    OrderAt(m, x);
    CancelGuards(m, u, o, budget);
    hide CancelOpen, Unit, Seen, OrdersOk;
    if u in m.users && Findable(m, o) && o.userId == u && !Seen(m, o).isClosed {
      if o in m.orders {
        OpenCancelRewritesIff(m, o, budget, x);
      } else {
        CancelOpenShape(m, o, budget);
      }
    }
  }

  lemma OpenCancelRewritesIff(m: Models, o: Order, budget: nat, x: Order)
    requires OrdersOk(m) && o in m.orders && x in m.orders && Look(m.stored, x).isClosed && o.userId in m.users
    requires !Seen(m, o).isClosed
    ensures var r := CancelOpen(m, o, budget);
            Look(r.m.stored, x) == Look(m.stored, x)
            <==> !(o == x && r.error.None? && EntryOf(m, o.id).Copy? && EntryOf(m, o.id).copy.fulfilled != Look(m.stored, o).fulfilled)
  {
    OrderAt(m, o);
    if o.id == x.id { SameId(m, o, x); }
    CancelOpenShape(m, o, budget);
    hide CancelOpen, WellFilled, Unit, OrdersOk;
  }

  lemma OrderAt(m: Models, o: Order)
    requires OrdersOk(m) && o in m.orders
    ensures OrderOk(m, o)
  {
  }

  lemma WakeRewritesIff(m: Models, o: Order, budget: nat, x: Order)
    requires OrdersOk(m) && x in m.orders && Look(m.stored, x).isClosed && (o in m.orders || Foreign(m, o))
    ensures Look(Wake(m, o, budget > 0).stored, x) == Look(m.stored, x) <==> !Rewrites(m, WakeOp(o, budget), x)
  {
    OrderAt(m, x);
    if o.id == x.id && o in m.orders { SameId(m, o, x); }
  }

  /** A closed row, of a filled or cancelled order, changes in a step if and only if the step writes over
      it. */
  lemma RowFinalIff(m: Models, op: Op, x: Order)
    requires OrdersOk(m) && Legal(m, op) && x in m.orders && Look(m.stored, x).isClosed
    ensures Look(Do(m, op).stored, x) == Look(m.stored, x) <==> !Rewrites(m, op, x)
  {
    OrderAt(m, x);
    hide PlaceBid, PlaceAsk, Fill, Accounts.Cancel, BuyFromExchange, PerformMortgage, SquareOff, Wake, OrdersOk, Known, Foreign,
         WellFilled, Linked, Unit, Outdates, Trades;
    match op
    case PlaceBidOp(o, fee, budget) => BidAdds(m, o, fee, budget);
    case PlaceAskOp(o, fee, budget) => AskAdds(m, o, fee, budget);
    case FillOp(a, b, price, qty, budget) => FillRewritesIff(m, a, b, price, qty, budget, x);
    case CancelOp(u, o, budget) => CancelRewritesIff(m, u, o, budget, x);
    case BuyOp(u, s, qty, budget) => BuyLeavesOrders(m, u, s, qty, budget);
    case MortgageOp(u, s, qty, price, budget) => MortgageLeavesOrders(m, u, s, qty, price, budget);
    case SquareOffOp(i) => if i < |m.lends| { SquareOffLeavesOrders(m, i); }
    case WakeOp(o, budget) => WakeRewritesIff(m, o, budget, x);
  }

  // -------------------------------------------------------------------------
  // Orders whose objects stay together
  // -------------------------------------------------------------------------

  ghost predicate AllAttached(m: Models) {
    forall o :: o in m.orders ==> Attached(m, o)
  }

  /** The steps that take an order's objects apart: a closing for lack of cash that fails half-way; a trade
      that records, but does not fill, an ask cancellations cannot find; and the waking of a stop-loss that
      closes its row while another copy is open, or that records one cancellations cannot find. */
  ghost predicate Detaches(m: Models, op: Op) {
    match op
    case FillOp(a, b, price, qty, budget) =>
      || (Known(m, b) && HalfCloses(m, a, b, price, qty, budget))
      || (a.id !in m.stored && Trades(m, a, b, price, qty, budget)
          && EntryOf(m, a.id) != Shared && qty < Unfulfilled(a, Look(m.progress, a)))
    case WakeOp(o, budget) =>
      budget > 0
      && (if o.id in m.stored then
            Look(m.progress, o).isClosed && !Look(m.stored, o).isClosed
            && EntryOf(m, o.id).Copy? && !EntryOf(m, o.id).copy.isClosed
          else !Look(m.progress, o).isClosed && EntryOf(m, o.id) != Shared)
    case _ => false
  }

  ghost predicate SameObjects(m: Models, m': Models, z: Order) {
    && Look(m'.progress, z) == Look(m.progress, z) && Look(m'.stored, z) == Look(m.stored, z)
    && EntryOf(m', z.id) == EntryOf(m, z.id)
  }

  /** Order z's object and row were written together. */
  ghost predicate Rewritten(m': Models, z: Order) {
    && Look(m'.progress, z) == Look(m'.stored, z)
    && (EntryOf(m', z.id) == Shared || (EntryOf(m', z.id) == Missing && Look(m'.progress, z).isClosed))
  }

  lemma StayAttached(m: Models, m': Models)
    requires AllAttached(m) && m'.orders == m.orders
    requires forall z :: z in m.orders ==> SameObjects(m, m', z) || Rewritten(m', z)
    ensures AllAttached(m')
  {
    forall z | z in m'.orders ensures Attached(m', z) {
      assert Attached(m, z);
    }
  }

  lemma TradeAttached(m: Models, a: Order, b: Order, price: nat, qty: nat, budget: nat)
    requires AllAttached(m) && Fill(m, a, b, price, qty, budget).traded && a.id in m.stored && b.id in m.stored
    ensures AllAttached(Fill(m, a, b, price, qty, budget).m)
  {
    var m' := Fill(m, a, b, price, qty, budget).m;
    TradeShape(m, a, b, price, qty, budget);
    hide Fill, CashLeft, TradeRows, AskTax, BidTax, Portion;
    forall z | z in m.orders ensures SameObjects(m, m', z) || Rewritten(m', z) {
      assert Attached(m, z);
    }
    StayAttached(m, m');
  }

  /** An order recorded now is attached if cancellations find it, or it is closed. */
  lemma RecordedAttachedIff(m: Models, o: Order)
    requires OrdersOk(m) && AllAttached(m) && Foreign(m, o)
    ensures AllAttached(Wake(m, o, true)) <==> Look(m.progress, o).isClosed || EntryOf(m, o.id) == Shared
  {
    var m' := Wake(m, o, true);
    forall z | z in m.orders ensures Attached(m', z) {
      assert Attached(m, z) && OrderOk(m, z);
    }
    assert o in m'.orders;
    assert Attached(m', o) <==> Look(m.progress, o).isClosed || EntryOf(m, o.id) == Shared;
  }

  lemma ForeignTradeAttachedIff(m: Models, a: Order, b: Order, price: nat, qty: nat, budget: nat)
    requires OrdersOk(m) && AllAttached(m) && Legal(m, FillOp(a, b, price, qty, budget)) && Foreign(m, a)
    requires Fill(m, a, b, price, qty, budget).traded
    ensures AllAttached(Fill(m, a, b, price, qty, budget).m)
            <==> EntryOf(m, a.id) == Shared || qty == Unfulfilled(a, Look(m.progress, a))
  {
    hide Fill;
    var m0, m' := Wake(m, a, true), Fill(m, a, b, price, qty, budget).m;
    TradeRecords(m, a, b, price, qty, budget);
    TradeShape(m0, a, b, price, qty, budget);
    hide CashLeft, TradeRows, Portion;
    BidKnown(m, b);
    forall z | z in m.orders ensures Attached(m', z) {
      assert Attached(m, z) && OrderOk(m, z);
    }
    assert a in m'.orders && m'.orders == m.orders + [a];
    assert Attached(m', a) <==> EntryOf(m, a.id) == Shared || qty == Unfulfilled(a, Look(m.progress, a));
  }

  lemma CloseAttached(m: Models, a: Order, b: Order, price: nat, qty: nat, budget: nat)
    requires AllAttached(m) && a.id != b.id && b.id in m.stored
    requires var r := Fill(m, a, b, price, qty, budget); !r.traded && r.bid == Done
    ensures AllAttached(Fill(m, a, b, price, qty, budget).m)
  {
    var m' := Fill(m, a, b, price, qty, budget).m;
    ClosedShape(m, a, b, price, qty, budget);
    hide Fill, CashLeft, Refund;
    forall z | z in m.orders ensures SameObjects(m, m', z) || Rewritten(m', z) {
      assert Attached(m, z);
    }
    StayAttached(m, m');
  }

  lemma FillAttachedIff(m: Models, a: Order, b: Order, price: nat, qty: nat, budget: nat)
    requires OrdersOk(m) && AllAttached(m) && Legal(m, FillOp(a, b, price, qty, budget))
    ensures AllAttached(Fill(m, a, b, price, qty, budget).m) <==> !Detaches(m, FillOp(a, b, price, qty, budget))
  {
    var r := Fill(m, a, b, price, qty, budget);
    FillGuards(m, a, b, price, qty, budget);
    AskFound(m, a);
    hide Fill, AllAttached, AskFits;
    if r.traded {
      BidKnown(m, b);
      if Known(m, a) {
        TradeAttached(m, a, b, price, qty, budget);
      } else {
        ForeignTradeAttachedIff(m, a, b, price, qty, budget);
      }
      hide Known, Foreign, OrdersOk, CashLeft, FillWrites;
    } else if r.bid == Done {
      BidKnown(m, b);
      CloseAttached(m, a, b, price, qty, budget);
      hide Known, Foreign, OrdersOk, CashLeft, FillWrites;
    } else {
      NoFill(m, a, b, price, qty, budget);
      hide CashLeft;
      HalfClosedDetaches(m, a, b, price, qty, budget);
      hide Known, Foreign, OrdersOk, HalfCloses, Trades, ClosesShort;
    }
  }

  lemma HalfClosedDetaches(m: Models, a: Order, b: Order, price: nat, qty: nat, budget: nat)
    requires OrdersOk(m) && AllAttached(m) && (Known(m, b) || Foreign(m, b)) && b.id.side == BidSide
    ensures HalfCloses(m, a, b, price, qty, budget)
            ==> Known(m, b) && EntryOf(m, b.id) == Shared && !AllAttached(m.(entries := m.entries[b.id := Missing]))
  {
    hide CashLeft;
    if HalfCloses(m, a, b, price, qty, budget) {
      BidKnown(m, b);
      var y := BidFound(m, b);
      hide OrdersOk, HalfCloses, SameBid;
      assert y in m.orders && Attached(m, y) by { SameBidOrder(m, b, y); }
      assert !Attached(m.(entries := m.entries[b.id := Missing]), y);
    }
  }

  lemma SameBidOrder(m: Models, b: Order, y: Order)
    requires SameBid(m, b, y)
    ensures y in m.orders && y.id == b.id
  {
  }

  lemma NothingDetaches(m: Models, m': Models)
    requires AllAttached(m) && LeavesOrders(m, m')
    ensures AllAttached(m')
  {
    forall z | z in m'.orders ensures Attached(m', z) {
      assert Attached(m, z);
    }
  }

  lemma AddingAttached(m: Models, m': Models, o: Order)
    requires AllAttached(m) && OrdersOk(m) && Adds(m, m', o) && o.id !in m.progress
    ensures AllAttached(m')
  {
    forall z | z in m'.orders ensures Attached(m', z) {
      if z in m.orders {
        assert Attached(m, z) && OrderOk(m, z);
      }
    }
  }

  lemma LookedUpAttached(m: Models, o: Order)
    requires OrdersOk(m) && AllAttached(m) && (o in m.orders || Foreign(m, o)) && Findable(m, o)
    ensures AllAttached(LookedUp(m, o))
  {
    var m' := LookedUp(m, o);
    assert o in m.orders ==> Attached(m, o) && OrderOk(m, o);
    forall z | z in m'.orders ensures Attached(m', z) {
      assert Attached(m, z);
    }
  }

  lemma CancelOpenAttached(m: Models, o: Order, budget: nat)
    requires OrdersOk(m) && AllAttached(m) && o in m.orders && o.userId in m.users && !Seen(m, o).isClosed
    ensures AllAttached(CancelOpen(m, o, budget).m)
  {
    var m' := CancelOpen(m, o, budget).m;
    CancelOpenShape(m, o, budget);
    hide CancelOpen;
    assert Attached(m, o) && OrderOk(m, o);
    forall z | z in m'.orders ensures Attached(m', z) {
      assert Attached(m, z);
    }
  }

  lemma ForeignCancelAttached(m: Models, o: Order, budget: nat)
    requires OrdersOk(m) && AllAttached(m) && Foreign(m, o) && Findable(m, o) && !Seen(m, o).isClosed
    ensures AllAttached(CancelOpen(m, o, budget).m)
  {
    var m' := CancelOpen(m, o, budget).m;
    CancelOpenShape(m, o, budget);
    hide CancelOpen;
    forall z | z in m'.orders ensures Attached(m', z) {
      assert z in m.orders ==> Attached(m, z) && OrderOk(m, z);
    }
  }

  lemma CancelAttached(m: Models, u: nat, o: Order, budget: nat)
    requires OrdersOk(m) && AllAttached(m) && Legal(m, CancelOp(u, o, budget))
    ensures AllAttached(Accounts.Cancel(m, u, o, budget).m)
  {
    hide AllAttached, LookedUp, CancelOpen, Seen, OrdersOk;
    if u in m.users && Findable(m, o) {
      LookedUpAttached(m, o);
      if o.userId == u && !Seen(m, o).isClosed {
        if o in m.orders {
          CancelOpenAttached(m, o, budget);
        } else {
          ForeignCancelAttached(m, o, budget);
        }
      }
    }
  }

  lemma WakeAttachedIff(m: Models, o: Order, budget: nat)
    requires OrdersOk(m) && AllAttached(m) && Legal(m, WakeOp(o, budget))
    ensures AllAttached(Wake(m, o, budget > 0)) <==> !Detaches(m, WakeOp(o, budget))
  {
    if Foreign(m, o) {
      RecordedAttachedIff(m, o);
    } else if budget > 0 {
      RowSavedAttachedIff(m, o);
    }
  }

  lemma RowSavedAttachedIff(m: Models, o: Order)
    requires OrdersOk(m) && AllAttached(m) && o in m.orders
    ensures AllAttached(Wake(m, o, true)) <==> !Detaches(m, WakeOp(o, 1))
  {
    var m' := Wake(m, o, true);
    assert Attached(m, o) && OrderOk(m, o);
    forall z | z in m.orders && z.id != o.id ensures Attached(m', z) {
      assert Attached(m, z);
    }
    assert Attached(m', o) <==> !Detaches(m, WakeOp(o, 1));
    forall z | z in m.orders && z.id == o.id ensures z == o { SameId(m, z, o); }
  }

  /** Every legal step keeps objects together, except exactly those that take an order's apart. */
  lemma StepAttachedIff(m: Models, op: Op)
    requires OrdersOk(m) && AllAttached(m) && Legal(m, op)
    ensures AllAttached(Do(m, op)) <==> !Detaches(m, op)
  {
    hide PlaceBid, PlaceAsk, Fill, Accounts.Cancel, BuyFromExchange, PerformMortgage, SquareOff, Wake, Known, Foreign,
         AllAttached, Adds, OrdersOk, LeavesOrders, HalfCloses, Trades;
    match op
    case PlaceBidOp(o, fee, budget) =>
      BidAdds(m, o, fee, budget);
      AddingAttached(m, Do(m, op), o);
    case PlaceAskOp(o, fee, budget) =>
      AskAdds(m, o, fee, budget);
      AddingAttached(m, Do(m, op), o);
    case FillOp(a, b, price, qty, budget) => FillAttachedIff(m, a, b, price, qty, budget);
    case CancelOp(u, o, budget) => CancelAttached(m, u, o, budget);
    case BuyOp(u, s, qty, budget) =>
      BuyLeavesOrders(m, u, s, qty, budget);
      NothingDetaches(m, Do(m, op));
    case MortgageOp(u, s, qty, price, budget) =>
      MortgageLeavesOrders(m, u, s, qty, price, budget);
      NothingDetaches(m, Do(m, op));
    case SquareOffOp(i) =>
      if i < |m.lends| {
        SquareOffLeavesOrders(m, i);
        NothingDetaches(m, Do(m, op));
      }
    case WakeOp(o, budget) => WakeAttachedIff(m, o, budget);
  }

  lemma KnownTogether(m: Models, b: Order)
    requires AllAttached(m) && Known(m, b)
    ensures !Apart(m, b)
  {
    var y :| y in m.orders && (b == y || b == Triggered(y));
    assert Attached(m, y);
  }

  /** A woken bid is saved as closed while its row is open: what it holds in reserve is given up. */
  ghost predicate Forfeits(m: Models, op: Op) {
    && op.WakeOp? && op.budget > 0 && op.o.id.side == BidSide && Unit(m.deposits, op.o) > 0
    && Look(m.progress, op.o).isClosed && !Look(m.stored, op.o).isClosed
  }

  lemma FillsTogether(m: Models, a: Order, b: Order, price: nat, qty: nat, budget: nat, x: Order)
    requires OrdersOk(m) && AllAttached(m) && Legal(m, FillOp(a, b, price, qty, budget)) && x in m.orders
    ensures !Apart(m, b)
    ensures Look(m.stored, x).isClosed ==> !Rewrites(m, FillOp(a, b, price, qty, budget), x)
  {
    assert Attached(m, x) && OrderOk(m, x);
    if Known(m, b) {
      KnownTogether(m, b);
    }
  }

  lemma CancelsTogether(m: Models, u: nat, o: Order, budget: nat)
    requires AllAttached(m) && Legal(m, CancelOp(u, o, budget))
    ensures !Misbooks(m, CancelOp(u, o, budget))
  {
    if o in m.orders {
      assert Attached(m, o);
    }
  }

  lemma WakesTogether(m: Models, o: Order, budget: nat)
    requires AllAttached(m) && Legal(m, WakeOp(o, budget))
    ensures Misbooks(m, WakeOp(o, budget)) <==> Forfeits(m, WakeOp(o, budget))
    ensures o in m.orders && Look(m.stored, o).isClosed ==> Look(m.progress, o).isClosed
  {
    if o in m.orders {
      assert Attached(m, o);
    }
  }

  /** While objects are together no step writes over a closed row, and none uses a reservation twice or
      loses one but the waking that gives it up. */
  lemma TogetherIsSafe(m: Models, op: Op, x: Order)
    requires OrdersOk(m) && AllAttached(m) && Legal(m, op)
    ensures !Outdates(m, op) && (Misbooks(m, op) <==> Forfeits(m, op))
    ensures x in m.orders && Look(m.stored, x).isClosed ==> !Rewrites(m, op, x)
  {
    match op
    case FillOp(a, b, price, qty, budget) =>
      if x in m.orders {
        FillsTogether(m, a, b, price, qty, budget, x);
      }
      if Known(m, b) {
        KnownTogether(m, b);
      }
      hide Known, Legal, OrdersOk, AllAttached, Trades, ClosesShort;
    case CancelOp(u, o, budget) =>
      hide CancelSucceeds, AllAttached;
      CancelsTogether(m, u, o, budget);
    case WakeOp(o, budget) =>
      hide AllAttached, Unit;
      WakesTogether(m, o, budget);
    case _ =>
  }

  // -------------------------------------------------------------------------
  // Runs
  // -------------------------------------------------------------------------

  /** Legal runs one after the other are a legal run. */
  lemma {:induction false} ThenOps(m: Models, xs: seq<Op>, ys: seq<Op>)
    requires LegalOps(m, xs) && LegalOps(RunOps(m, xs), ys)
    ensures LegalOps(m, xs + ys) && RunOps(m, xs + ys) == RunOps(RunOps(m, xs), ys)
    decreases |xs|
  {
    if xs == [] {
      assert xs + ys == ys;
    } else {
      assert (xs + ys)[0] == xs[0] && (xs + ys)[1..] == xs[1..] + ys;
      ThenOps(Do(m, xs[0]), xs[1..], ys);
    }
  }

  /** No step takes an order's objects apart. */
  ghost predicate NeverDetaches(m: Models, ops: seq<Op>)
    decreases |ops|
  {
    ops != [] ==> !Detaches(m, ops[0]) && NeverDetaches(Do(m, ops[0]), ops[1..])
  }

  ghost predicate NeverForfeits(m: Models, ops: seq<Op>)
    decreases |ops|
  {
    ops != [] ==> !Forfeits(m, ops[0]) && NeverForfeits(Do(m, ops[0]), ops[1..])
  }

  /** So while no step takes objects apart, a run keeps every order's objects together, whatever other
      writes fail, and its reserves are right at every step if and only if no waking gives one up. */
  lemma {:induction false} StaysTogether(m: Models, ops: seq<Op>)
    requires OrdersOk(m) && InWords(m) && AllAttached(m) && LegalOps(m, ops) && NeverDetaches(m, ops)
    ensures OrdersOk(RunOps(m, ops)) && AllAttached(RunOps(m, ops))
    ensures NeverMisbooked(m, ops) <==> NeverForfeits(m, ops)
    decreases |ops|
  {
    hide OrdersOk, InWords, AllAttached, Misbooks, Detaches, Legal, Do, Rewrites, Outdates, Forfeits;
    if ops != [] {
      var any: Order :| true;
      TogetherIsSafe(m, ops[0], any);
      StepOrdersOkIff(m, ops[0]);
      StepInWords(m, ops[0]);
      StepAttachedIff(m, ops[0]);
      StaysTogether(Do(m, ops[0]), ops[1..]);
    }
  }

  /** Orders are only ever added. */
  ghost predicate RecordsStay(m: Models, m': Models) {
    m.orders <= m'.orders
  }

  lemma OrdersOnlyGrow(m: Models, op: Op)
    ensures RecordsStay(m, Do(m, op))
  {
    hide PlaceBid, PlaceAsk, Fill, Accounts.Cancel, BuyFromExchange, PerformMortgage, SquareOff, Wake, RecordsStay;
    match op
    case PlaceBidOp(o, fee, budget) =>
      BidAdds(m, o, fee, budget);
      AddingKeeps(m, Do(m, op), o);
    case PlaceAskOp(o, fee, budget) =>
      AskAdds(m, o, fee, budget);
      AddingKeeps(m, Do(m, op), o);
    case FillOp(a, b, price, qty, budget) => FillKeepsTable(m, a, b, price, qty, budget);
    case CancelOp(u, o, budget) => CancelKeepsTable(m, u, o, budget);
    case BuyOp(u, s, qty, budget) =>
      BuyLeavesOrders(m, u, s, qty, budget);
      SameKeeps(m, Do(m, op));
    case MortgageOp(u, s, qty, price, budget) =>
      MortgageLeavesOrders(m, u, s, qty, price, budget);
      SameKeeps(m, Do(m, op));
    case SquareOffOp(i) =>
      if i < |m.lends| { SquareOffLeavesOrders(m, i); }
      SameKeeps(m, Do(m, op));
    case WakeOp(o, budget) => WakeKeepsTable(m, o, budget > 0);
  }

  lemma AddingKeeps(m: Models, m': Models, o: Order)
    requires Adds(m, m', o)
    ensures RecordsStay(m, m')
  {
  }

  lemma SameKeeps(m: Models, m': Models)
    requires m'.orders == m.orders
    ensures RecordsStay(m, m')
  {
  }

  lemma WakeKeepsTable(m: Models, o: Order, saved: bool)
    ensures RecordsStay(m, Wake(m, o, saved)) && Wake(m, o, saved).deposits == m.deposits
  {
  }

  lemma FillKeepsTable(m: Models, a: Order, b: Order, price: nat, qty: nat, budget: nat)
    ensures RecordsStay(m, Fill(m, a, b, price, qty, budget).m) && OnlyAdds(m, Fill(m, a, b, price, qty, budget).m, {a, b})
    ensures Fill(m, a, b, price, qty, budget).m.deposits == m.deposits
  {
    hide FillCore, FillResultOf, RecordsStay, OnlyAdds;
    SameKeeps(m, m);
    if a.userId in m.users && b.userId in m.users {
      var x := PartiesOf(m, a, b);
      if qty > 0 || x.ask.isClosed || x.bid.isClosed {
        ResultKeeps(m, a, b, FillCore(a, b, x, DepositOf(m, b.id), price, qty, budget), price, qty, budget);
      }
    }
    SameAdds(m, m, {a, b});
  }

  /** Every order that is new is one of xs. */
  ghost predicate OnlyAdds(m: Models, m': Models, xs: set<Order>) {
    forall x :: x in m'.orders ==> x in m.orders || x in xs
  }

  lemma SameAdds(m: Models, m': Models, xs: set<Order>)
    requires m'.orders == m.orders
    ensures OnlyAdds(m, m', xs)
  {
  }

  lemma ResultKeeps(m: Models, a: Order, b: Order, r: FillOutcome, price: nat, qty: nat, budget: nat)
    requires a.userId in m.users && b.userId in m.users
    ensures var m' := FillResultOf(m, a, b, r, price, qty, budget).m;
            RecordsStay(m, m') && OnlyAdds(m, m', {a, b}) && m'.deposits == m.deposits
  {
    hide PutSummary, PutEntry, StockAfterTrade, AskTax, BidTax, FillWrites, PartiesOf, RecordsStay, OnlyAdds, WithRow;
    var m' := FillResultOf(m, a, b, r, price, qty, budget).m;
    SameKeeps(m, m);
    SameAdds(m, m, {a, b});
    WrittenKeeps(m, a, b, r.x.ask, r.x.bid);
    KeepsBy(m, WithRow(WithRow(m, a, r.x.ask), b, r.x.bid), m', {a, b});
    KeepsBy(m, WithRow(m, b, r.x.bid), m', {a, b});
    KeepsBy(m, m, m', {a, b});
  }

  lemma WrittenKeeps(m: Models, a: Order, b: Order, ap: Progress, bp: Progress)
    ensures var m1, m2 := WithRow(m, b, bp), WithRow(WithRow(m, a, ap), b, bp);
            RecordsStay(m, m1) && RecordsStay(m, m2) && OnlyAdds(m, m1, {a, b}) && OnlyAdds(m, m2, {a, b})
  {
  }

  lemma KeepsBy(m: Models, s: Models, m': Models, xs: set<Order>)
    requires RecordsStay(m, s) && OnlyAdds(m, s, xs)
    ensures m'.orders == s.orders ==> RecordsStay(m, m') && OnlyAdds(m, m', xs)
  {
  }

  lemma CancelKeepsTable(m: Models, u: nat, o: Order, budget: nat)
    ensures RecordsStay(m, Accounts.Cancel(m, u, o, budget).m) && OnlyAdds(m, Accounts.Cancel(m, u, o, budget).m, {o})
    ensures Accounts.Cancel(m, u, o, budget).m.deposits == m.deposits
  {
    hide CancelOpen, Seen, Findable, LookedUp;
    if u in m.users && Findable(m, o) && o.userId == u && !Seen(m, o).isClosed {
      CancelOpenShape(m, o, budget);
    }
  }

  /** And once an order's row is closed, filled or cancelled, its filled quantity never changes. */
  lemma {:induction false} ClosedIsFinal(m: Models, ops: seq<Op>, x: Order)
    requires OrdersOk(m) && InWords(m) && AllAttached(m) && LegalOps(m, ops) && NeverDetaches(m, ops)
    requires x in m.orders && Look(m.stored, x).isClosed
    ensures x in RunOps(m, ops).orders && Look(RunOps(m, ops).stored, x) == Look(m.stored, x)
    decreases |ops|
  {
    hide OrdersOk, InWords, AllAttached, Misbooks, Detaches, Legal, Do, Rewrites, Look, Outdates, Forfeits;
    if ops != [] {
      TogetherIsSafe(m, ops[0], x);
      StepOrdersOkIff(m, ops[0]);
      StepInWords(m, ops[0]);
      StepAttachedIff(m, ops[0]);
      RowFinalIff(m, ops[0], x);
      OrdersOnlyGrow(m, ops[0]);
      ClosedIsFinal(Do(m, ops[0]), ops[1..], x);
    }
  }

  // -------------------------------------------------------------------------
  // How a reservation comes to be used twice
  // -------------------------------------------------------------------------

  /** After a closing that failed half-way, the user can cancel the bid and gets the reservation back,
      while the matcher still holds it open; a fill that takes part of it then takes the reservation a
      second time. */
  lemma CancelAfterHalfClose(m: Models, a: Order, y: Order, price: nat, qty: nat, budget: nat,
                             a': Order, price': nat, qty': nat, budget': nat)
    requires Booked(m) && AllAttached(m) && y in m.orders && y.id.side == BidSide
    requires HalfCloses(m, a, y, price, qty, budget)
    ensures var m1 := Fill(m, a, y, price, qty, budget).m;
            var r := Accounts.Cancel(m1, y.userId, y, CancelWrites(BidSide));
            && r.error.None? && Booked(r.m) && Apart(r.m, y)
            && (Unit(m.deposits, y) > 0 && qty' < Unfulfilled(y, Look(r.m.progress, y))
                ==> Trades(r.m, a', y, price', qty', budget') ==> Misbooks(r.m, FillOp(a', y, price', qty', budget')))
  {
    var m1 := Fill(m, a, y, price, qty, budget).m;
    HalfClosedLoses(m, a, y, price, qty, budget);
    assert OrderOk(m, y) && Attached(m, y) && y.id in m.deposits;
    EntryGone(m, m1, y);
    hide Fill, HalfCloses, Booked, CancelOpen, Unit, Trades, ClosesShort;
    LostBidCancelled(m1, y);
  }

  lemma HalfClosedLoses(m: Models, a: Order, y: Order, price: nat, qty: nat, budget: nat)
    requires HalfCloses(m, a, y, price, qty, budget)
    ensures var r := Fill(m, a, y, price, qty, budget);
            && !r.traded && r.bid == Undone && r.m == m.(entries := PutEntry(m, y.id, Missing))
  {
    hide AskTax, BidTax, TradeRows, CashLeft, FillWrites, Refund, Portion, StockAfterTrade, Traded;
  }

  /** A bid that is open, in the queue and in its row, but not in the map is cancelled in its row only. */
  lemma LostBidCancelled(m: Models, y: Order)
    requires Booked(m) && y in m.orders && y.id.side == BidSide && y.id in m.deposits && EntryOf(m, y.id) == Missing
    requires !Look(m.progress, y).isClosed && !Look(m.stored, y).isClosed
    ensures var r := Accounts.Cancel(m, y.userId, y, CancelWrites(BidSide));
            r.error.None? && Booked(r.m) && Apart(r.m, y) && r.m.deposits == m.deposits
  {
    assert OrderOk(m, y);
    CancelBookedIff(m, y.userId, y, CancelWrites(BidSide));
    hide Booked, WellFilled, Unit;
    CancelOpenShape(m, y, CancelWrites(BidSide));
    hide Released, MarkedClosed, TakenOut;
  }

  // -------------------------------------------------------------------------
  // Cancellations whose writes fail
  // -------------------------------------------------------------------------

  /** The deposit of a bid is found. */
  predicate Covered(m: Models, o: Order) {
    o.id.side == BidSide ==> o.id in m.deposits
  }

  /** After a cancellation that fails at some write, a second one that can write succeeds if and only
      if the failing write was not the very first, and a bid has its deposit. */
  lemma FailedCancelRetryIff(m: Models, o: Order, failed: nat, budget: nat)
    requires OrdersOk(m) && Attached(m, o) && o in m.orders && !Seen(m, o).isClosed
    requires failed < CancelWrites(o.id.side) <= budget
    ensures var r := Accounts.Cancel(m, o.userId, o, failed);
            && r.error.Some? && r.m.users == m.users && r.m.stored == m.stored
            && (Accounts.Cancel(r.m, o.userId, o, budget).error.None? <==> failed > 0 && Covered(m, o))
  {
    var r := Accounts.Cancel(m, o.userId, o, failed);
    assert OrderOk(m, o);
    CancelGuards(m, o.userId, o, failed);
    hide CancelOpen, OrdersOk, Unit, Seen;
    FailedLeaves(m, o, failed);
    CancelGuards(r.m, o.userId, o, budget);
  }

  /** What a failed cancellation leaves for the next one to find. */
  lemma FailedLeaves(m: Models, o: Order, failed: nat)
    requires o.userId in m.users && failed < CancelWrites(o.id.side) && o.id in m.stored
    requires Attached(m, o) && Linked(m, o) && !Seen(m, o).isClosed
    ensures var m' := CancelOpen(m, o, failed).m;
            m'.orders == m.orders && m'.stored == m.stored && m'.deposits == m.deposits && m'.users == m.users
            && (Seen(m', o).isClosed <==> failed == 0)
  {
    CancelOpenShape(m, o, failed);
    if failed == 0 {
      MarkedClosedIs(m, o);
      hide MarkedClosed;
    } else {
      hide CancelOpen;
    }
  }

  /** Closed in memory, open in the table, and cancellations find the closed object. */
  ghost predicate Stuck(m: Models, o: Order) {
    && o in m.orders && o.id in m.stored && o.id in m.progress
    && EntryOf(m, o.id) == Shared && Look(m.progress, o).isClosed && !Look(m.stored, o).isClosed
  }

  /** A cancellation that fails at its first write leaves an order in the queue stuck... */
  lemma FirstWriteSticks(m: Models, o: Order)
    requires OrdersOk(m) && o in m.orders && EntryOf(m, o.id) == Shared && !Look(m.progress, o).isClosed
    ensures Stuck(Accounts.Cancel(m, o.userId, o, 0).m, o)
  {
    assert OrderOk(m, o);
    CancelOpenShape(m, o, 0);
    MarkedClosedIs(m, o);
    hide MarkedClosed, OrdersOk, WellFilled, Unit;
  }

  /** The step saves the woken object over the order's row. */
  predicate SavesWoken(op: Op, o: Order) {
    op.WakeOp? && op.o.id == o.id && op.budget > 0
  }

  lemma StuckStep(m: Models, op: Op, o: Order)
    requires Legal(m, op) && Stuck(m, o) && !SavesWoken(op, o)
    ensures Stuck(Do(m, op), o) && Look(Do(m, op).stored, o) == Look(m.stored, o)
  {
    hide Do, Legal;
    OrdersOnlyGrow(m, op);
    StuckUntouched(m, op, o);
  }

  /** Legal steps, and what they leave of an order that is closed in the queue and found there. */
  lemma StuckUntouched(m: Models, op: Op, o: Order)
    requires Legal(m, op) && o.id in m.progress && !SavesWoken(op, o)
    requires EntryOf(m, o.id) == Shared && Look(m.progress, o).isClosed
    ensures Untouched(m, Do(m, op), o)
  {
    hide PlaceBid, PlaceAsk, Fill, Accounts.Cancel, BuyFromExchange, PerformMortgage, SquareOff, Wake, Known, Foreign,
         Untouched, Adds, EntryOf, Look;
    match op
    case PlaceBidOp(x, fee, budget) =>
      BidAdds(m, x, fee, budget);
      AddingUntouched(m, Do(m, op), x, o);
    case PlaceAskOp(x, fee, budget) =>
      AskAdds(m, x, fee, budget);
      AddingUntouched(m, Do(m, op), x, o);
    case FillOp(a, b, price, qty, budget) => FillLeavesClosed(m, a, b, price, qty, budget, o);
    case CancelOp(u, x, budget) => StuckCancel(m, u, x, budget, o);
    case BuyOp(u, s, qty, budget) =>
      BuyLeavesOrders(m, u, s, qty, budget);
      LeftUntouched(m, Do(m, op), o);
    case MortgageOp(u, s, qty, price, budget) =>
      MortgageLeavesOrders(m, u, s, qty, price, budget);
      LeftUntouched(m, Do(m, op), o);
    case SquareOffOp(i) =>
      if i < |m.lends| {
        SquareOffLeavesOrders(m, i);
        LeftUntouched(m, Do(m, op), o);
      } else {
        SameUntouched(m, o);
      }
    case WakeOp(x, budget) => WakeUntouched(m, x, budget, o);
  }

  lemma AddingUntouched(m: Models, m': Models, x: Order, o: Order)
    requires Adds(m, m', x) && x.id != o.id
    ensures Untouched(m, m', o)
  {
  }

  lemma LeftUntouched(m: Models, m': Models, o: Order)
    requires LeavesOrders(m, m')
    ensures Untouched(m, m', o)
  {
  }

  lemma WakeUntouched(m: Models, x: Order, budget: nat, o: Order)
    requires x.id != o.id || budget == 0
    ensures Untouched(m, Wake(m, x, budget > 0), o)
  {
  }

  /** Nothing of order o changes. */
  ghost predicate Untouched(m: Models, m': Models, o: Order) {
    && Look(m'.progress, o) == Look(m.progress, o) && Look(m'.stored, o) == Look(m.stored, o)
    && EntryOf(m', o.id) == EntryOf(m, o.id) && m.progress.Keys <= m'.progress.Keys && m.stored.Keys <= m'.stored.Keys
  }

  /** A fill touches no order that is closed in the queue. */
  lemma FillLeavesClosed(m: Models, a: Order, b: Order, price: nat, qty: nat, budget: nat, o: Order)
    requires Look(m.progress, o).isClosed && a.id != b.id
    ensures Untouched(m, Fill(m, a, b, price, qty, budget).m, o)
  {
    hide Fill, Untouched;
    var r := Fill(m, a, b, price, qty, budget);
    if r.traded {
      TradeLeavesClosed(m, a, b, price, qty, budget, o);
    } else if r.bid == Done {
      CloseLeavesClosed(m, a, b, price, qty, budget, o);
    } else {
      NoFillLeavesClosed(m, a, b, price, qty, budget, o);
    }
  }

  lemma TradeLeavesClosed(m: Models, a: Order, b: Order, price: nat, qty: nat, budget: nat, o: Order)
    requires Look(m.progress, o).isClosed && Fill(m, a, b, price, qty, budget).traded
    ensures Untouched(m, Fill(m, a, b, price, qty, budget).m, o)
  {
    hide Fill, CashLeft, TradeRows, Portion, AskTax, BidTax, FilledBy, Untouched;
    TradeShape(m, a, b, price, qty, budget);
    ElsewhereUntouched(m, Fill(m, a, b, price, qty, budget).m, a.id, b.id, o);
  }

  lemma CloseLeavesClosed(m: Models, a: Order, b: Order, price: nat, qty: nat, budget: nat, o: Order)
    requires Look(m.progress, o).isClosed && a.id != b.id
    requires var r := Fill(m, a, b, price, qty, budget); !r.traded && r.bid == Done
    ensures Untouched(m, Fill(m, a, b, price, qty, budget).m, o)
  {
    hide Fill, CashLeft, Refund, Untouched;
    ClosedShape(m, a, b, price, qty, budget);
    ElsewhereUntouched(m, Fill(m, a, b, price, qty, budget).m, a.id, b.id, o);
  }

  lemma NoFillLeavesClosed(m: Models, a: Order, b: Order, price: nat, qty: nat, budget: nat, o: Order)
    requires Look(m.progress, o).isClosed
    requires var r := Fill(m, a, b, price, qty, budget); !r.traded && r.bid != Done
    ensures Untouched(m, Fill(m, a, b, price, qty, budget).m, o)
  {
    hide Fill, CashLeft, Untouched;
    NoFill(m, a, b, price, qty, budget);
    if HalfCloses(m, a, b, price, qty, budget) {
      ElsewhereUntouched(m, Fill(m, a, b, price, qty, budget).m, b.id, b.id, o);
    }
    SameUntouched(m, o);
  }

  lemma SameUntouched(m: Models, o: Order)
    ensures Untouched(m, m, o)
  {
  }

  lemma ElsewhereUntouched(m: Models, m': Models, x: OrderId, y: OrderId, o: Order)
    requires o.id != x && o.id != y
    requires forall z: Order :: z.id != x && z.id != y
               ==> Look(m'.progress, z) == Look(m.progress, z) && Look(m'.stored, z) == Look(m.stored, z)
    requires forall id :: id != x && id != y ==> EntryOf(m', id) == EntryOf(m, id)
    requires m.progress.Keys <= m'.progress.Keys && m.stored.Keys <= m'.stored.Keys
    ensures Untouched(m, m', o)
  {
  }

  lemma StuckCancel(m: Models, u: nat, x: Order, budget: nat, o: Order)
    requires EntryOf(m, o.id) == Shared && Look(m.progress, o).isClosed
    ensures Untouched(m, Accounts.Cancel(m, u, x, budget).m, o)
  {
    hide CancelOpen;
    if u in m.users && Findable(m, x) && x.userId == u && !Seen(m, x).isClosed {
      assert x.id != o.id;
      CancelOpenShape(m, x, budget);
      hide Seen, EntryOf, Findable, LookedUp;
    } else {
      LookedUpUntouched(m, x, o);
    }
  }

  lemma LookedUpUntouched(m: Models, x: Order, o: Order)
    requires EntryOf(m, o.id) != Missing
    ensures Untouched(m, LookedUp(m, x), o)
  {
    hide Look;
  }

  /** ...and stuck it stays, with its row open and whatever it holds in reserve locked, in every run that
      does not save it when it is woken. */
  lemma {:induction false} StuckStays(m: Models, ops: seq<Op>, o: Order)
    requires LegalOps(m, ops) && Stuck(m, o) && forall op :: op in ops ==> !SavesWoken(op, o)
    ensures Stuck(RunOps(m, ops), o) && Look(RunOps(m, ops).stored, o) == Look(m.stored, o)
    decreases |ops|
  {
    hide Stuck, Do, Legal, Look, SavesWoken;
    if ops != [] {
      StuckStep(m, ops[0], o);
      StuckStays(Do(m, ops[0]), ops[1..], o);
    }
  }

  /** Closed in its row, in the queue and in the map. */
  ghost predicate Over(m: Models, o: Order) {
    && o.id in m.stored && o.id in m.progress && Look(m.stored, o).isClosed && Look(m.progress, o).isClosed
    && !(EntryOf(m, o.id).Copy? && !EntryOf(m, o.id).copy.isClosed)
  }

  lemma OverStep(m: Models, op: Op, o: Order)
    requires Legal(m, op) && Over(m, o)
    ensures Over(Do(m, op), o)
  {
    hide PlaceBid, PlaceAsk, Fill, Accounts.Cancel, BuyFromExchange, PerformMortgage, SquareOff, Known, Foreign;
    match op
    case PlaceBidOp(x, fee, budget) => BidAdds(m, x, fee, budget);
    case PlaceAskOp(x, fee, budget) => AskAdds(m, x, fee, budget);
    case FillOp(a, b, price, qty, budget) =>
      FillLeavesClosed(m, a, b, price, qty, budget, o);
      UntouchedOver(m, Do(m, op), o);
    case CancelOp(u, x, budget) => OverCancel(m, u, x, budget, o);
    case BuyOp(u, s, qty, budget) => BuyLeavesOrders(m, u, s, qty, budget);
    case MortgageOp(u, s, qty, price, budget) => MortgageLeavesOrders(m, u, s, qty, price, budget);
    case SquareOffOp(i) => if i < |m.lends| { SquareOffLeavesOrders(m, i); }
    case WakeOp(x, budget) =>
  }

  lemma UntouchedOver(m: Models, m': Models, o: Order)
    requires Over(m, o) && Untouched(m, m', o)
    ensures Over(m', o)
  {
  }

  lemma OverCancel(m: Models, u: nat, x: Order, budget: nat, o: Order)
    requires Over(m, o)
    ensures Over(Accounts.Cancel(m, u, x, budget).m, o)
  {
    hide CancelOpen;
    if u in m.users && Findable(m, x) && x.userId == u && !Seen(m, x).isClosed {
      CancelOpenShape(m, x, budget);
    }
  }

  lemma {:induction false} OverStays(m: Models, ops: seq<Op>, o: Order)
    requires LegalOps(m, ops) && Over(m, o)
    ensures Over(RunOps(m, ops), o)
    decreases |ops|
  {
    hide Over, Do, Legal;
    if ops != [] {
      OverStep(m, ops[0], o);
      OverStays(Do(m, ops[0]), ops[1..], o);
    }
  }

  /** A stuck stop-loss that is woken and saved is over without having been paid: what it held stays in
      its user's reserve, and in no later run is a cancellation of it accepted. */
  lemma WokenStuckIsLost(m: Models, o: Order, budget: nat, ops: seq<Op>, u: nat, b: nat)
    requires Booked(m) && Stuck(m, o) && budget > 0 && LegalOps(Wake(m, o, true), ops)
    ensures var m1 := Do(m, WakeOp(o, budget));
            && m1.users == m.users && m1.rows == m.rows && Look(m1.stored, o).isClosed
            && Held(m1.deposits, m1.stored, o) == 0
            && (o.id.side == BidSide && Unit(m.deposits, o) > 0 ==> Held(m.deposits, m.stored, o) > 0)
            && var r := RunOps(m1, ops); Look(r.stored, o).isClosed && Accounts.Cancel(r, u, o, b).error.Some?
  {
    var m1 := Wake(m, o, true);
    assert OrderOk(m, o);
    if o.id.side == BidSide && Unit(m.deposits, o) > 0 {
      var n := o.quantity - Look(m.stored, o).fulfilled;
      LeftOver(Unit(m.deposits, o), n, n);
    }
    OverStays(m1, ops, o);
    hide Booked, Unit, LegalOps;
    var r := RunOps(m1, ops);
    OverCancelled(r, o, u, b);
  }

  lemma OverCancelled(m: Models, o: Order, u: nat, budget: nat)
    requires Over(m, o)
    ensures Accounts.Cancel(m, u, o, budget).error.Some?
  {
  }

  // -------------------------------------------------------------------------
  // What a fill can do to its orders
  // -------------------------------------------------------------------------

  /** A trade of as much as both can take fills neither beyond its quantity and closes at least one. */
  lemma TradeClosesOne(m: Models, a: Order, b: Order, price: nat, qty: nat, budget: nat)
    requires Booked(m) && Known(m, a) && Known(m, b) && a.id.side == AskSide && b.id.side == BidSide
    requires qty == TradeQty(a, Look(m.progress, a), b, Look(m.progress, b))
    requires Fill(m, a, b, price, qty, budget).traded
    ensures var r := Fill(m, a, b, price, qty, budget);
            var ap, bp := Look(r.m.progress, a), Look(r.m.progress, b);
            && ap.fulfilled <= a.quantity && bp.fulfilled <= b.quantity
            && r.ask == (if ap.fulfilled == a.quantity then Done else Undone)
            && r.bid == (if bp.fulfilled == b.quantity then Done else Undone)
            && (r.ask == Done || r.bid == Done)
  {
    TradeShape(m, a, b, price, qty, budget);
    KnownOpen(m, a);
    KnownOpen(m, b);
    hide Fill, Booked, Known, TradeRows, CashLeft, Portion;
  }

  lemma KnownOpen(m: Models, o: Order)
    requires Booked(m) && Known(m, o)
    ensures Look(m.progress, o).fulfilled <= o.quantity
    ensures !Look(m.progress, o).isClosed ==> Look(m.progress, o).fulfilled < o.quantity
  {
    var x :| x in m.orders && (o == x || o == Triggered(x));
    assert OrderOk(m, x);
  }

  /** A bid is closed for lack of cash exactly when the buyer's cash and the part reserved for this trade
      do not cover its cost, and the closing can be written. */
  lemma ClosedShortIff(m: Models, a: Order, b: Order, price: nat, qty: nat, budget: nat)
    requires Booked(m) && Known(m, b) && b.id.side == BidSide && 0 < qty <= Unfulfilled(b, Look(m.progress, b))
    requires !Look(m.progress, a).isClosed && !Look(m.progress, b).isClosed
    requires a.userId in m.users && b.userId in m.users && a.userId != b.userId
    ensures var r := Fill(m, a, b, price, qty, budget);
            r.bid == Done && !r.traded
            <==> b.id in m.deposits && Signed64(m.users[b.userId].cash) + Unit(m.deposits, b) * qty < price * qty && budget >= CLOSE_WRITES
  {
    FillGuards(m, a, b, price, qty, budget);
    if b.id in m.deposits {
      BidShare(m, b, qty);
    }
    hide Fill, AskTax, BidTax, FillWrites, Booked, Known, Portion, Unit;
  }

  /** A bid's share of its reservation for qty of its stocks. */
  lemma BidShare(m: Models, b: Order, qty: nat)
    requires Booked(m) && Known(m, b) && b.id.side == BidSide && b.id in m.deposits
    requires !Look(m.progress, b).isClosed && qty <= Unfulfilled(b, Look(m.progress, b))
    ensures Portion(m.deposits[b.id], qty, b.quantity) == Unit(m.deposits, b) * qty
    ensures b.oType == Limit ==> Unit(m.deposits, b) == b.price
  {
    var y := BidFound(m, b);
    PartIs(m, b, y, qty);
  }

  /** A limit bid, filled at no more than its own price, is never closed for lack of cash. */
  lemma LimitBidNeverShort(m: Models, a: Order, b: Order, price: nat, qty: nat, budget: nat)
    requires Booked(m) && Legal(m, FillOp(a, b, price, qty, budget)) && b.oType == Limit
    requires b.userId in m.users ==> m.users[b.userId].cash < TWO_63
    ensures var r := Fill(m, a, b, price, qty, budget);
            r.bid == Done ==> r.traded
  {
    var r := Fill(m, a, b, price, qty, budget);
    if r.bid == Done && !r.traded {
      ClosedShape(m, a, b, price, qty, budget);
      if Known(m, b) {
        hide Fill, Booked, Known;
        BidShare(m, b, qty);
        PriceWithinReserve(b.price, price, qty);
        InWordsAt(m, b.userId);
        hide Portion, Unit;
      }
    }
  }

  lemma InWordsAt(m: Models, u: nat)
    requires Booked(m) && u in m.users
    ensures 0 <= m.users[u].cash < TWO_64
  {
  }

  lemma PriceWithinReserve(unit: nat, price: nat, qty: nat)
    requires price <= unit
    ensures price * qty <= unit * qty
  {
  }
}
