/** Inputs at which the conditions of the theorems fail, so that what they exclude does happen. */
module Witnesses {
  import opened Words
  import opened Orders
  import opened Wrappers
  import opened State
  import opened Stocks
  import opened Depths
  import opened Matching
  import opened BookTheorems
  import opened DepthAgrees
  import opened DepthTurn
  import opened DepthRuns
  import opened Reservations
  import opened OrderLife
  import opened RealFills
  import Accounts
  import ClearDepth
  import ClearExisting
  import ClearRuns
  import DepthStops
  import DoubleEntry
  import Exchange
  import Heap
  import NoOrderLost
  import Sums
  import Taxes
  import Uncrossed

  // -------------------------------------------------------------------------
  // A tax that the buyer cannot pay
  // -------------------------------------------------------------------------

  function StockAt(price: nat): Stock {
    Stock(price, price as real, price, 1000, 1000, price, price, price, price, price, price, price, 0)
  }

  /** A user 20 short at 1000 in stock 2, now at 100, with just the cash to buy 20 back, and 10 of stock 3. */
  function ShortSeller(): Models {
    Models(map[1 := User(2000, 0, 3000000)], [], map[], map[], map[], map[],
           map[(1, 2) := Summary(-20, 1000.0)],
           [Accounts.Row(1, 3, FromExchange, 0, 10, 1000, 0, -10000)],
           map[2 := StockAt(100), 3 := StockAt(1000)], map[], [], map[])
  }

  function BuyBack(): Accounts.Op {
    Accounts.BuyOp(1, 2, 20, 100)
  }

  function MortgageTen(): Accounts.Op {
    Accounts.MortgageOp(1, 3, -10, 0, 100)
  }

  lemma ProfitTaxed()
    ensures Taxes.BuyTax(Some(Summary(-20, 1000.0)), 20, 100, 3000000) == 4500
  {
    Taxes.Percent(3000000);
    assert Taxes.BuyProfit(Summary(-20, 1000.0), 20, 100) == 18000.0;
  }

  lemma BoughtBack()
    ensures var r := Accounts.BuyFromExchange(ShortSeller(), 1, 2, 20, 100);
            && r.error.None? && r.m.users == map[1 := User(TWO_64 - 4500, 0, 3000000)]
            && r.m.rows == ShortSeller().rows + [Accounts.Row(1, 2, FromExchange, 0, 20, 100, 0, -2000),
                                                 Accounts.Row(1, 2, Tax, 0, 0, 0, 0, -4500)]
            && r.m.stocks == ShortSeller().stocks[2 := StockAt(100).(stocksInExchange := 980, stocksInMarket := 1020)]
            && r.m.mortgages == map[]
  {
    ProfitTaxed();
    hide Taxes.BuyTax, Taxes.Bought;
    assert Accounts.BoughtQty(ShortSeller(), 2, 20) == 20;
  }

  lemma BuyBackUnderflows()
    ensures var m := ShortSeller();
            Booked(m) && DoubleEntry.Costed(m) && Legal(m, BuyBack()) && DoubleEntry.TaxUnderflows(m, BuyBack(), 1)
  {
    BoughtBack();
    ProfitTaxed();
    assert Booked(ShortSeller()) && DoubleEntry.Costed(ShortSeller());
    hide Taxes.BuyTax, Accounts.BuyFromExchange, Booked, DoubleEntry.Costed;
    assert Accounts.BoughtQty(ShortSeller(), 2, 20) == 20;
  }

  /** Buying back leaves nothing for the tax of 4500, and the account holds almost 2^64; a later mortgage of
      10 stocks at 1000 brings cash and ledger together again, at 3500. */
  lemma BuyerTaxCanUnderflow()
    ensures var m := ShortSeller();
            && Booked(m) && DoubleEntry.Costed(m) && Legal(m, BuyBack()) && DoubleEntry.TaxUnderflows(m, BuyBack(), 1)
            && 1 in m.users
            && var m1 := Accounts.Do(m, BuyBack());
               && 1 in m1.users && m1.users[1].cash == TWO_64 - 4500
               && var m2 := Accounts.Do(m1, MortgageTen());
                  && 1 in m2.users && m2.users[1].cash == 3500
                  && 3500 == m.users[1].cash + DoubleEntry.Ledger(m2, 1) - DoubleEntry.Ledger(m, 1)
  {
    BuyBackUnderflows();
    BoughtBack();
    hide Accounts.BuyFromExchange, Booked, DoubleEntry.Costed, Legal, DoubleEntry.TaxUnderflows, Accounts.PerformMortgage,
         DoubleEntry.Ledger, StockAt;
    var m1 := Accounts.Do(ShortSeller(), BuyBack());
    TenOwned(m1);
    ThirdStock();
    Mortgaged(m1);
    MovedBy(ShortSeller(), m1, Accounts.Do(m1, MortgageTen()));
  }

  lemma ThirdStock()
    ensures 3 in ShortSeller().stocks && ShortSeller().stocks[3].currentPrice == 1000
  {
  }

  lemma TenOwned(m1: Models)
    requires m1.rows == ShortSeller().rows + [Accounts.Row(1, 2, FromExchange, 0, 20, 100, 0, -2000),
                                              Accounts.Row(1, 2, Tax, 0, 0, 0, 0, -4500)]
    ensures Accounts.StockCount(m1, 1, 3) == 10
  {
    var w := Accounts.StocksOf(1, 3);
    assert m1.rows == [m1.rows[0], m1.rows[1], m1.rows[2]];
    ThreeRows(m1.rows[0], m1.rows[1], m1.rows[2], w);
  }

  lemma ThreeRows(a: Transaction, b: Transaction, c: Transaction, w: Transaction -> int)
    ensures Sums.Sum([a, b, c], w) == w(a) + w(b) + w(c)
  {
    assert [a, b, c] == [a, b] + [c];
    Sums.SumAppend([a, b], c, w);
    DoubleEntry.TwoRows(a, b, w);
  }

  lemma Mortgaged(m1: Models)
    requires m1.users == map[1 := User(TWO_64 - 4500, 0, 3000000)] && 3 in m1.stocks && m1.stocks[3].currentPrice == 1000
    requires Accounts.StockCount(m1, 1, 3) == 10
    ensures var m2 := Accounts.Do(m1, MortgageTen());
            && m2.users == map[1 := User(3500, 0, 3000000)]
            && m2.rows == m1.rows + [Accounts.Row(1, 3, Mortgage, 0, -10, 1000, 0, 8000)]
  {
    hide Accounts.StockCount;
    assert Accounts.DepositAmount(1000, 10) == 8000;
  }

  lemma MovedBy(m: Models, m1: Models, m2: Models)
    requires m1.rows == m.rows + [Accounts.Row(1, 2, FromExchange, 0, 20, 100, 0, -2000),
                                  Accounts.Row(1, 2, Tax, 0, 0, 0, 0, -4500)]
    requires m2.rows == m1.rows + [Accounts.Row(1, 3, Mortgage, 0, -10, 1000, 0, 8000)]
    ensures DoubleEntry.Ledger(m2, 1) == DoubleEntry.Ledger(m, 1) + 1500
  {
    var w := DoubleEntry.CashOf(1);
    var a, b := Accounts.Row(1, 2, FromExchange, 0, 20, 100, 0, -2000), Accounts.Row(1, 2, Tax, 0, 0, 0, 0, -4500);
    Sums.SumConcat(m.rows, [a, b], w);
    DoubleEntry.TwoRows(a, b, w);
    Sums.SumAppend(m1.rows, Accounts.Row(1, 3, Mortgage, 0, -10, 1000, 0, 8000), w);
  }

  // -------------------------------------------------------------------------
  // A bid closed for lack of cash
  // -------------------------------------------------------------------------

  function DearAsk(): Order { Order(OrderId(AskSide, 1), 1, 2, Limit, 110, 10, 5) }

  function MarketBid(): Order { Order(OrderId(BidSide, 1), 2, 2, Market, 0, 10, 6) }

  /** User 1 asks 110 for ten stocks; user 2, without further cash, has reserved ten times the current price
      of 100. */
  function TooDear(): Models {
    var open := map[DearAsk().id := Progress(0, false), MarketBid().id := Progress(0, false)];
    Models(map[1 := User(0, 0, 0), 2 := User(0, 1000, 0)], [DearAsk(), MarketBid()], open, open,
           map[DearAsk().id := Shared, MarketBid().id := Shared], map[MarketBid().id := 1000],
           map[], [], map[2 := StockAt(100)], map[], [], map[])
  }

  lemma TooDearBooked()
    ensures Booked(TooDear()) && AllAttached(TooDear())
  {
    var m := TooDear();
    assert Unit(m.deposits, MarketBid()) == 100;
    assert OrderOk(m, DearAsk()) && OrderOk(m, MarketBid());
    forall u | u in m.users ensures m.users[u].reservedCash == Sums.Sum(m.orders, HeldBy(u, m.deposits, m.stored)) {
      var w := HeldBy(u, m.deposits, m.stored);
      assert m.orders == [DearAsk()] + [MarketBid()];
      Sums.SumConcat([DearAsk()], [MarketBid()], w);
      assert Sums.Sum([DearAsk()], w) == w(DearAsk()) && Sums.Sum([MarketBid()], w) == w(MarketBid());
      assert w(DearAsk()) == 0 && w(MarketBid()) == if u == 2 then 1000 else 0;
    }
  }

  lemma TooDearShort()
    ensures var m := TooDear();
            Accounts.CashLeft(Accounts.PartiesOf(m, DearAsk(), MarketBid()), MarketBid(), 1000, 110, 10) == -100
  {
  }

  /** If closing the bid fails after its first write, its objects come apart; cancelled then, it is open in
      the queue while its row is closed and its reservation returned. */
  lemma BidsCanComeApart()
    ensures var m := TooDear();
            && Booked(m) && AllAttached(m) && HalfCloses(m, DearAsk(), MarketBid(), 110, 10, 2)
            && var m1 := Accounts.Fill(m, DearAsk(), MarketBid(), 110, 10, 2).m;
               Apart(Accounts.Cancel(m1, 2, MarketBid(), 4).m, MarketBid())
  {
    var m := TooDear();
    TooDearBooked();
    TooDearShort();
    hide Accounts.CashLeft;
    assert HalfCloses(m, DearAsk(), MarketBid(), 110, 10, 2);
    hide HalfCloses, Booked, AllAttached, Accounts.Fill, Accounts.Cancel;
    CancelAfterHalfClose(m, DearAsk(), MarketBid(), 110, 10, 2, DearAsk(), 110, 10, 2);
  }

  /** The ask alone in the book, its ten stocks in the depth. */
  function AskResting(): Book {
    Book(Half([DearAsk()], []), Half([], []), Depth(Level(map[110 := 10], map[]), Level(map[], map[]), [], []), TooDear())
  }

  lemma AskLevelOk()
    ensures var b := AskResting(); Agrees(b.depth.ask, b.ask.live, b.m.progress) && Agrees(b.depth.bid, b.bid.live, b.m.progress)
  {
    var b := AskResting();
    var pm := b.m.progress;
    forall k ensures Get(b.depth.ask.depth, k) == OpenQty(b.ask.live, pm, k) {
      OpenQtyCons(DearAsk(), [], pm, k);
      assert [DearAsk()] + [] == b.ask.live;
    }
    forall k ensures Get(b.depth.bid.depth, k) == OpenQty(b.bid.live, pm, k) {}
  }

  lemma AskQueuesOk()
    ensures var b := AskResting();
            && ValidHalf(AskSide, b.ask) && ValidHalf(BidSide, b.bid)
            && Tracked(b.ask, b.m.progress) && Tracked(b.bid, b.m.progress)
            && NoStops(b) && Arriving(b, MarketBid())
  {
    var b := AskResting();
    assert Population(b.bid) == multiset{} && Population(b.ask) == multiset{DearAsk()};
    assert b.Of(AskSide) == b.ask && b.Of(BidSide) == b.bid;
    hide Population;
  }

  lemma AskRestingOk()
    ensures DepthOk(AskResting()) && NoStops(AskResting()) && Arriving(AskResting(), MarketBid())
  {
    AskLevelOk();
    AskQueuesOk();
    hide Agrees, Tracked, ValidHalf, Arriving, NoStops;
    BothHalves(AskResting(), AskSide);
  }

  lemma NextIsDearAsk()
    ensures var b, o := AskResting(), MarketBid();
            && HasMatch(b, o) && TopMatch(b, o).0 == Some(DearAsk())
            && NoOrderLost.NextPrice(b, o) == 110 && NextQty(b, o) == 10
  {
  }

  /** A market bid that lacks the cash for a dearer ask is closed, every write succeeding, and the depth
      forgets the ask, which stays open in the queue. */
  lemma ShortBidForgetsAsk()
    ensures DepthOk(AskResting()) && HasMatch(AskResting(), MarketBid())
    ensures !DepthOk(PlayRound(AskResting(), MarketBid(), Exchange.RealFill()).b)
  {
    hide DepthOk, Arriving, NoStops, TopMatch, NoOrderLost.NextPrice, NextQty, PlayRound, NextClosesShort;
    var b, o := AskResting(), MarketBid();
    AskRestingOk();
    NextIsDearAsk();
    NoNextTrade();
    RealTurnKeepsDepthIff(b, o, Exchange.AlwaysPlenty());
  }

  lemma NoNextTrade()
    ensures HasMatch(AskResting(), MarketBid()) && !NextTrades(AskResting(), MarketBid(), Exchange.AlwaysPlenty())
  {
    NextIsDearAsk();
    TooDearShort();
    hide TopMatch, NoOrderLost.NextPrice, NextQty, Accounts.CashLeft;
  }

  /** No write succeeds. */
  function NoWrites(): Writes {
    Writes((m: Models, ask: Order, bid: Order) => 0, (m: Models, o: Order) => 0)
  }

  /** When the closing cannot be written either, the incoming bid is dropped: it stays open, in no queue. */
  lemma IncomingDropped()
    ensures var r := Process(AskResting(), MarketBid(), FillWith(NoWrites()));
            && r.end == Failed && !Look(r.b.m.progress, MarketBid()).isClosed && MarketBid() !in Population(r.b.bid)
  {
    hide DepthOk, Arriving, TopMatch, Process, NoOrderLost.NextPrice, NextQty, PlayRound, Sound, Population, WritesWanted;
    var b, o := AskResting(), MarketBid();
    AskRestingOk();
    NextIsDearAsk();
    SoundOf(b);
    AskAlone(o);
    SomeWritesWanted(b.m);
    DroppedIff(b, o, NoWrites());
    hide NoWrites;
    assert Process(b, o, FillWith(NoWrites())).b.Of(BidSide) == Process(b, o, FillWith(NoWrites())).b.bid;
  }

  lemma AskAlone(o: Order)
    requires o == MarketBid()
    ensures AllUsersKnown(AskResting(), o)
  {
    assert Population(AskResting().ask) == multiset{DearAsk()};
  }

  lemma SomeWritesWanted(m: Models)
    requires m == TooDear()
    ensures WritesWanted(m, DearAsk(), MarketBid(), 110, 10) > 0
  {
    hide Accounts.CashLeft, Accounts.AskTax, Accounts.BidTax;
  }

  // -------------------------------------------------------------------------
  // A stop-loss whose cancellation failed
  // -------------------------------------------------------------------------

  /** User 2's stop-loss to buy ten stocks at 100 or more, with 1000 reserved. */
  function StopBid(): Order { Order(OrderId(BidSide, 1), 2, 2, StopLoss, 100, 10, 6) }

  function OneStop(): Models {
    var open := map[StopBid().id := Progress(0, false)];
    Models(map[2 := User(0, 1000, 0)], [StopBid()], open, open, map[StopBid().id := Shared], map[StopBid().id := 1000],
           map[], [], map[], map[], [], map[])
  }

  lemma OneStopBooked()
    ensures Booked(OneStop()) && Unit(OneStop().deposits, StopBid()) == 100
  {
    var m := OneStop();
    assert Unit(m.deposits, StopBid()) == 100;
    assert OrderOk(m, StopBid());
    forall u | u in m.users ensures m.users[u].reservedCash == Sums.Sum(m.orders, HeldBy(u, m.deposits, m.stored)) {
      var w := HeldBy(u, m.deposits, m.stored);
      assert Sums.Sum([StopBid()], w) == w(StopBid());
    }
  }

  /** Its cancellation fails at the first write; then a trade wakes it, and its row is saved as closed. The
      1000 stay in reserve, no open bid needs them, and no cancellation returns them. */
  lemma StuckStopIsLost(budget: nat)
    ensures var m := OneStop();
            var m1 := Accounts.Do(m, Accounts.CancelOp(2, StopBid(), 0));
            var m2 := Accounts.Do(m1, Accounts.WakeOp(StopBid(), 1));
            && Booked(m) && Booked(m1) && Stuck(m1, StopBid()) && Forfeits(m1, Accounts.WakeOp(StopBid(), 1))
            && Look(m2.stored, StopBid()).isClosed && m2.users == map[2 := User(0, 1000, 0)] && !Booked(m2)
            && Accounts.Cancel(m2, 2, StopBid(), budget).error.Some?
  {
    hide Booked, Accounts.Cancel, Unit, Stuck, Accounts.CancelOpen;
    var m, x := OneStop(), StopBid();
    var m1 := Accounts.Cancel(m, 2, x, 0).m;
    OneStopBooked();
    FirstWriteSticks(m, x) by { assert OrdersOk(m) by { BookedHas(m); } }
    CancelStops(m, x);
    WakeBookedIff(m1, x, 1);
    WokenStuckIsLost(m1, x, 1, [], 2, budget);
    StuckMeans(m1, x);
  }

  lemma CancelStops(m: Models, x: Order)
    requires m == OneStop() && x == StopBid() && Booked(m)
    ensures var m1 := Accounts.Cancel(m, 2, x, 0).m;
            Booked(m1) && m1.users == m.users && m1.deposits == m.deposits && m1.orders == m.orders
  {
    CancelGuards(m, 2, x, 0);
    CancelBookedIff(m, 2, x, 0);
    DoubleEntry.FailedCancelKeeps(m, 2, x, 0);
    CancelOpenShape(m, x, 0);
    hide Booked, Accounts.MarkedClosed;
  }

  lemma StuckMeans(m: Models, x: Order)
    requires Stuck(m, x)
    ensures Look(m.progress, x).isClosed && !Look(m.stored, x).isClosed && x in m.orders
  {
  }

  // -------------------------------------------------------------------------
  // Woken stop-losses
  // -------------------------------------------------------------------------

  function AskOf(num: nat, user: nat, t: OrderType, price: nat): Order {
    Order(OrderId(AskSide, num), user, 7, t, price, 1, 20)
  }

  function BidOfFive(): Order { Order(OrderId(BidSide, 1), 2, 7, Limit, 100, 5, 10) }

  /** A stop-loss of user 3 to sell at 105 or less. */
  function Stop(): Order { AskOf(2, 3, StopLoss, 105) }

  function BookOf(asks: seq<Order>, stops: seq<Order>, bids: seq<Order>, m: Models): Book {
    Book(Half(asks, stops), Half(bids, []), Depth(Level(map[], map[]), Level(map[], map[]), [], []), m)
  }

  lemma StopWakes(asks: seq<Order>)
    requires |asks| <= 1
    ensures var h := TriggerHalf(AskSide, Half(asks, [Stop()]), 100);
            h.stops == [] && h.live == Heap.Push(MINPQ, asks, Triggered(Stop()))
  {
    var s := [Stop()];
    assert Heap.Pop(MAXPQ, s) == [] by { PopOne(MAXPQ, Stop()); }
    assert Woken(MAXPQ, [], 100) == ([], []);
    assert ShouldTrigger(100, Stop()) && [Stop()] + [] == [Stop()];
    assert Woken(MAXPQ, s, 100) == ([s[0]] + [], []);
    assert TriggeredAll([Stop()]) == [Triggered(Stop())];
    assert Heap.PushAll(MINPQ, asks, [Triggered(Stop())]) == Heap.Push(MINPQ, asks, Triggered(Stop())) by {
      assert [Triggered(Stop())][1..] == [];
    }
  }

  lemma PopOne(t: PQType, o: Order)
    ensures Heap.Pop(t, [o]) == []
  {
    assert |Heap.Pop(t, [o])| == 0;
  }

  /** An ask of 1 at 100 comes in, trades with a bid of 5 at 100 and wakes user 3's stop-loss, which stays in
      the queue facing the rest of that bid. */
  lemma WokenStopCrosses(m: Models, m': Models, f: Desk)
    requires m.progress == map[]
    requires f.fill(m, AskOf(1, 1, Limit, 100), BidOfFive(), 100, 1) == FillResult(m', Done, Undone, true)
    ensures var b := BookOf([], [Stop()], [BidOfFive()], m);
            && Valid(b) && Uncrossed.IsUncrossed(b)
            && Uncrossed.Crossing(Process(b, AskOf(1, 1, Limit, 100), f).b, Triggered(Stop()), BidOfFive())
  {
    hide PlayRound, AfterWakes, TriggerHalf, Heap.IsHeap;
    var b, o := BookOf([], [Stop()], [BidOfFive()], m), AskOf(1, 1, Limit, 100);
    BidAndStop(m);
    assert TopMatch(b, o) == (Some(BidOfFive()), [], [BidOfFive()]);
    assert TradeTerms(b, o, BidOfFive()) == (100, 1);
    NoOrderLost.RoundHalves(b, o, f);
    StopWakes([]);
    PushOnEmpty(MINPQ, Triggered(Stop()));
    var r := PlayRound(b, o, f);
    assert r.done && !r.topDone;
    assert Process(b, o, f).b == r.b;
    hide Process, TopMatch, Valid;
    assert r.b.ask.live == [Triggered(Stop())] && r.b.bid.live == [BidOfFive()];
  }

  lemma BidAndStop(m: Models)
    ensures Valid(BookOf([], [Stop()], [BidOfFive()], m))
    ensures TriggerHalf(BidSide, Half([BidOfFive()], []), 100) == Half([BidOfFive()], [])
  {
    assert Woken(MINPQ, [], 100) == ([], []);
    var b := BookOf([], [Stop()], [BidOfFive()], m);
    forall s: Side ensures ValidHalf(s, b.Of(s)) {}
  }

  lemma PushOnEmpty(t: PQType, o: Order)
    ensures Heap.Push(t, [], o) == [o]
  {
  }

  /** A bid of 5 at 100 takes the only ask and wakes user 3's stop-loss, which is popped in its place: the
      stop-loss is lost and the finished ask stays. */
  lemma WrongOrderPopped(m: Models, m': Models, f: Desk)
    requires m.progress == map[]
    requires f.fill(m, AskOf(1, 1, Limit, 100), BidOfFive(), 100, 1) == FillResult(m', Done, Undone, true)
    ensures var b := BookOf([AskOf(1, 1, Limit, 100)], [Stop()], [], m);
            && Valid(b) && HasMatch(b, BidOfFive()) && NoOrderLost.Overtaken(b, BidOfFive(), f)
            && var r := PlayRound(b, BidOfFive(), f);
               r.topDone && r.top == AskOf(1, 1, Limit, 100) && r.popped == [Triggered(Stop())]
  {
    hide PlayRound, AfterWakes, TriggerHalf, Heap.IsHeap, Valid;
    var ask, o := AskOf(1, 1, Limit, 100), BidOfFive();
    var b := BookOf([ask], [Stop()], [], m);
    AskAndStop(m);
    assert TopMatch(b, o) == (Some(ask), [], [ask]);
    assert TradeTerms(b, ask, o) == (100, 1);
    NoOrderLost.RoundHalves(b, o, f);
    StopWakes([ask]);
    PushAbove(MINPQ, ask, Triggered(Stop()));
    assert Stop() in b.ask.stops && ShouldTrigger(100, Stop());
  }

  lemma AskAndStop(m: Models)
    ensures Valid(BookOf([AskOf(1, 1, Limit, 100)], [Stop()], [], m))
  {
    var b := BookOf([AskOf(1, 1, Limit, 100)], [Stop()], [], m);
    forall s: Side ensures ValidHalf(s, b.Of(s)) {}
  }

  lemma PushAbove(t: PQType, a: Order, o: Order)
    requires Less(t, a, o)
    ensures Heap.Push(t, [a], o) == [o, a]
  {
    var u := [a] + [o];
    assert Heap.Exch(u, 1, 2) == [o, a];
    assert Heap.At(u, 1) == a && Heap.At(u, 2) == o;
    assert Heap.Swim(t, [o, a], 1) == [o, a];
    assert Heap.Swim(t, u, 2) == Heap.Swim(t, Heap.Exch(u, 1, 2), 1);
  }

  lemma OwnAskSkipped(m: Models)
    requires m.progress == map[]
    ensures var own, ask, o := AskOf(3, 2, Limit, 90), AskOf(1, 1, Limit, 100), BidOfFive();
            var b := BookOf([own, ask], [], [], m);
            && Valid(b) && TopIn(b, AskSide, o) == (Some(ask), [own], [ask]) && TradeTerms(b, ask, o) == (100, 1)
            && TriggerHalf(AskSide, Half([ask], []), 100) == Half([ask], [])
            && Heap.PushAll(MINPQ, [ask], [own]) == [own, ask]
  {
    var own, ask, o := AskOf(3, 2, Limit, 90), AskOf(1, 1, Limit, 100), BidOfFive();
    var b := BookOf([own, ask], [], [], m);
    PopTwo(MINPQ, own, ask);
    assert SkipOwn(MINPQ, [ask], 2) == ([], [ask]);
    assert [own] + [] == [own];
    assert Woken(MAXPQ, [], 100) == ([], []);
    PushAbove(MINPQ, ask, own);
    assert [own][1..] == [];
    assert Heap.Ordered(MINPQ, [own, ask], 2);
    forall s: Side ensures ValidHalf(s, b.Of(s)) {}
  }

  /** Start-up: the bidder's own cheaper ask is put back before the ask that was filled is popped, and is
      popped in its place. */
  lemma WrongAskCleared(m: Models, m': Models, f: Desk)
    requires m.progress == map[]
    requires f.fill(m, AskOf(1, 1, Limit, 100), BidOfFive(), 100, 1) == FillResult(m', Done, Undone, true)
    ensures var b := BookOf([AskOf(3, 2, Limit, 90), AskOf(1, 1, Limit, 100)], [], [], m);
            && Valid(b) && TopIn(b, AskSide, BidOfFive()).0.Some? && ClearExisting.ClearOvertaken(b, BidOfFive(), f)
            && var r := ClearRound(b, BidOfFive(), f);
               r.askDone && r.top == AskOf(1, 1, Limit, 100) && r.popped == [AskOf(3, 2, Limit, 90)]
  {
    hide TriggerHalf, TopIn, Valid, Heap.PushAll, TradeTerms;
    var own, ask, o := AskOf(3, 2, Limit, 90), AskOf(1, 1, Limit, 100), BidOfFive();
    var b := BookOf([own, ask], [], [], m);
    OwnAskSkipped(m);
    assert Fill(b, ask, o, f) == FillResult(m', Done, Undone, true);
    ClearExisting.ClearHalves(b, o, f);
    ClearDepth.ClearRoundModels(b, o, f);
    assert own in TopIn(b, AskSide, o).1;
    hide ClearRound;
  }

  lemma PopTwo(t: PQType, a: Order, c: Order)
    ensures Heap.Pop(t, [a, c]) == [c]
  {
    assert Heap.Exch([a, c], 1, 2) == [c, a];
    assert [c, a][..1] == [c];
    assert Heap.Sink(t, [c], 1) == [c];
  }

  /** A stop-loss cancelled while dormant enters the depth when it is woken, although nothing of it is for
      sale. */
  lemma CancelledStopCounted(m: Models)
    requires m.progress == map[Stop().id := Progress(0, true)]
    ensures var b, w := BookOf([], [Stop()], [], m), DepthStops.WokenOf(AskSide, Half([], [Stop()]), 100);
            && DepthOk(b)
            && !Agrees(LevelOf(AddStops(b.depth, AskSide, w), AskSide), TriggerHalf(AskSide, b.ask, 100).live, m.progress)
  {
    var b := BookOf([], [Stop()], [], m);
    assert TriggeredAll([Stop()]) == [Triggered(Stop())];
    assert Population(b.ask) == multiset{Triggered(Stop())} && Population(b.bid) == multiset{};
    hide Population;
    assert ValidHalf(AskSide, b.Of(AskSide)) && DepthHalf(LevelOf(b.depth, AskSide), b.Of(AskSide), m.progress);
    assert ValidHalf(BidSide, b.Of(BidSide)) && DepthHalf(LevelOf(b.depth, BidSide), b.Of(BidSide), m.progress);
    BothHalves(b, AskSide);
    assert Stop() in b.ask.stops && ShouldTrigger(100, Stop());
    hide ValidHalf, DepthOk;
    DepthStops.WakingKeepsDepthIff(b.depth, AskSide, b.ask, 100, m.progress);
  }

  function LaterBid(): Order { Order(OrderId(BidSide, 2), 3, 7, Limit, 95, 1, 20) }

  lemma TwoBids(m: Models)
    ensures var own := AskOf(3, 2, Limit, 90);
            && Valid(BookOf([own], [], [BidOfFive(), LaterBid()], m)) && Valid(BookOf([own], [], [LaterBid()], m))
            && Heap.Pop(MAXPQ, [BidOfFive(), LaterBid()]) == [LaterBid()]
  {
    var own := AskOf(3, 2, Limit, 90);
    var b, b1 := BookOf([own], [], [BidOfFive(), LaterBid()], m), BookOf([own], [], [LaterBid()], m);
    PopTwo(MAXPQ, BidOfFive(), LaterBid());
    assert Heap.Ordered(MAXPQ, [BidOfFive(), LaterBid()], 2);
    forall s: Side ensures ValidHalf(s, b.Of(s)) && ValidHalf(s, b1.Of(s)) {}
  }

  /** Start-up leaves a book crossed: user 2's bid is best, their own cheap ask is skipped for it, and user
      3's bid never gets its turn. */
  lemma StartUpStopsEarly(m: Models, f: Desk)
    ensures var own := AskOf(3, 2, Limit, 90);
            var b := BookOf([own], [], [BidOfFive(), LaterBid()], m);
            && Valid(b) && Uncrossed.Crossing(Matching.ClearExisting(b, f).b, own, LaterBid())
  {
    var own, best := AskOf(3, 2, Limit, 90), BidOfFive();
    var b, b1 := BookOf([own], [], [best, LaterBid()], m), BookOf([own], [], [LaterBid()], m);
    TwoBids(m);
    PopOne(MINPQ, own);
    assert SkipOwn(MINPQ, [own], 2) == ([own] + [], []);
    assert !ClearRuns.Meets(b1, best);
    assert b.SetLive(BidSide, [LaterBid()]) == b1;
    hide TopIn, SkipOwn, Valid, Heap.Pop, ClearLoop;
    ClearRuns.LoopEnds(b1, best, f);
    ClearRuns.PutBackContents(b1, best);
    var r := ClearRuns.PutBack(b1, best);
    assert Matching.ClearExisting(b, f).b == r;
    hide ClearRuns.PutBack;
    assert own in multiset(r.ask.live) && LaterBid() in multiset(r.bid.live);
  }
}
