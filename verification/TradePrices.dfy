/** At what prices orders trade, and what each trade does to the price of its stock. */
module TradePrices {
  import opened Words
  import opened Orders
  import opened Stocks
  import opened State
  import opened Depths
  import opened Matching
  import opened BookTheorems
  import opened NoOrderLost
  import opened DepthAgrees
  import opened Ranking
  import opened Reservations
  import Accounts
  import DoubleEntry
  import Heap
  import PriceHistory
  import Taxes

  // -------------------------------------------------------------------------
  // The deals of a call
  // -------------------------------------------------------------------------

  /** One trade of the incoming order: with whom, on which terms, and at what the stock stood before. */
  datatype Deal = Deal(resting: Order, price: nat, quantity: nat, current: nat)

  /** The trade of the next turn, if it trades. */
  function NextDeal(b: Book, o: Order, f: Desk): seq<Deal>
    requires HasMatch(b, o)
  {
    var top := TopMatch(b, o).0.value;
    var ask := if o.id.side == AskSide then o else top;
    if NextFill(b, o, f).traded then [Deal(top, NextPrice(b, o), NextQty(b, o), CurrentPrice(b.m, ask.stockId))] else []
  }

  /** The trades of a call, in order. */
  function Deals(b: Book, o: Order, f: Desk): seq<Deal>
    decreases |b.Live(Opposite(o.id.side))| + |b.Of(Opposite(o.id.side)).stops|
  {
    if !HasMatch(b, o) then []
    else
      var r := PlayRound(b, o, f);
      NextDeal(b, o, f) + if r.topDone && !r.done then Deals(r.b, o, f) else []
  }

  /** The terms of one deal of o, in numbers. */
  ghost predicate OnTerms(o: Order, d: Deal) {
    var c := d.resting;
    && (AtMarket(o) && AtMarket(c) ==> d.price == d.current)
    && (AtMarket(o) && !AtMarket(c) ==> d.price == c.price)
    && (!AtMarket(o) && AtMarket(c) ==> d.price == o.price)
    && (!AtMarket(o) && !AtMarket(c) && c.placedAt < o.placedAt ==> d.price == c.price)
    && (!AtMarket(o) && !AtMarket(c) && o.placedAt < c.placedAt ==> d.price == o.price)
    && (!AtMarket(o) && !AtMarket(c) && o.placedAt == c.placedAt
        ==> d.price == if o.id.side == BidSide then o.price else c.price)
  }

  /** Neither of two limit orders, nor one alone, gets a worse price than its own. */
  ghost predicate WithinLimits(o: Order, d: Deal) {
    var (ask, bid) := if o.id.side == AskSide then (o, d.resting) else (d.resting, o);
    (!AtMarket(ask) ==> ask.price <= d.price) && (!AtMarket(bid) ==> d.price <= bid.price)
  }

  lemma NextDealOnTerms(b: Book, o: Order, f: Desk, d: Deal)
    requires Valid(b) && HasMatch(b, o) && d in NextDeal(b, o, f)
    ensures OnTerms(o, d) && WithinLimits(o, d) && d.resting == TopMatch(b, o).0.value && d.resting in b.Live(Opposite(o.id.side))
    ensures d.resting.userId != o.userId && d.resting.id.side == Opposite(o.id.side)
    ensures o.stockId == d.resting.stockId && o.stockId in b.m.stocks ==> d.current == b.m.stocks[o.stockId].currentPrice
  {
    var top := TopMatch(b, o).0.value;
    var (ask, bid) := if o.id.side == AskSide then (o, top) else (top, o);
    TopMatchCorrect(b, o);
    assert ValidHalf(Opposite(o.id.side), b.Of(Opposite(o.id.side)));
    TradePriceIs(ask, bid, CurrentPrice(b.m, ask.stockId));
    assert d.price == TradePrice(ask, bid, CurrentPrice(b.m, ask.stockId));
    hide TopMatch, NextFill, TradePrice, Heap.IsHeap;
  }

  /** o is newer than every limit order it can meet. */
  ghost predicate NewerThanLimits(b: Book, o: Order) {
    forall c :: c in b.Live(Opposite(o.id.side)) && c.oType == Limit ==> c.placedAt < o.placedAt
  }

  lemma LimitWasLive(s: Side, h: Half, c: Order)
    requires ValidHalf(s, h) && c in Population(h) && c.oType == Limit
    ensures c in h.live
  {
    hide Heap.IsHeap;
    assert c in multiset(h.live) || c in multiset(TriggeredAll(h.stops));
  }

  lemma TurnKeepsNewer(b: Book, o: Order, f: Desk)
    requires Valid(b) && HasMatch(b, o) && NewerThanLimits(b, o)
    ensures NewerThanLimits(PlayRound(b, o, f).b, o)
  {
    var s, r := Opposite(o.id.side), PlayRound(b, o, f);
    assert ValidHalf(s, b.Of(s));
    hide PlayRound, HasMatch, Valid, ValidHalf, Population;
    RoundConserves(b, o, f);
    forall c | c in r.b.Live(s) && c.oType == Limit ensures c in b.Live(s) {
      assert c in multiset(r.b.Live(s));
      assert c in Population(b.Of(s)) by { LiveInPopulation(r.b.Of(s), c); }
      LimitWasLive(s, b.Of(s), c);
    }
  }

  /** Every deal of a call is on these terms, and with an order that was resting, or dormant, before it. */
  lemma {:induction false} DealsOnTerms(b: Book, o: Order, f: Desk)
    requires Valid(b) && o.oType != StopLoss
    ensures forall d :: d in Deals(b, o, f) ==> OnTerms(o, d) && WithinLimits(o, d) && d.resting.userId != o.userId
    decreases |b.Live(Opposite(o.id.side))| + |b.Of(Opposite(o.id.side)).stops|
  {
    hide PlayRound, HasMatch, Valid, NextDeal, OnTerms, WithinLimits;
    if HasMatch(b, o) {
      var r := PlayRound(b, o, f);
      RoundConserves(b, o, f);
      forall d | d in NextDeal(b, o, f) ensures OnTerms(o, d) && WithinLimits(o, d) && d.resting.userId != o.userId { NextDealOnTerms(b, o, f, d); }
      if r.topDone && !r.done {
        DealsOnTerms(r.b, o, f);
      }
    }
  }

  /** An incoming limit order newer than every resting limit order trades with each of them at the resting
      order's price. */
  lemma {:induction false} NewcomerTakesPrice(b: Book, o: Order, f: Desk)
    requires Valid(b) && o.oType == Limit && NewerThanLimits(b, o)
    ensures forall d :: d in Deals(b, o, f) && d.resting.oType == Limit ==> d.price == d.resting.price
    decreases |b.Live(Opposite(o.id.side))| + |b.Of(Opposite(o.id.side)).stops|
  {
    hide PlayRound, HasMatch, Valid, NextDeal;
    if HasMatch(b, o) {
      var r := PlayRound(b, o, f);
      RoundConserves(b, o, f);
      TurnKeepsNewer(b, o, f);
      forall d | d in NextDeal(b, o, f) && d.resting.oType == Limit ensures d.price == d.resting.price {
        NextDealOnTerms(b, o, f, d);
      }
      hide NewerThanLimits;
      if r.topDone && !r.done {
        NewcomerTakesPrice(r.b, o, f);
      }
    }
  }

  // -------------------------------------------------------------------------
  // What the depth stream reports of them
  // -------------------------------------------------------------------------

  function Reported(ds: seq<Deal>): seq<Depths.Trade>
    decreases |ds|
  {
    if ds == [] then [] else [Depths.Trade(ds[0].price, ds[0].quantity)] + Reported(ds[1..])
  }

  lemma {:induction false} AddStopsReportsNothing(d: Depth, s: Side, xs: seq<Order>)
    ensures AddStops(d, s, xs).latestTrades == d.latestTrades && AddStops(d, s, xs).latestTradesDiff == d.latestTradesDiff
    decreases |xs|
  {
    if xs != [] {
      AddStopsReportsNothing(Added(d, true, s, xs[0].price, xs[0].quantity), s, xs[1..]);
    }
  }

  lemma SettleReports(b: Book, ask: Order, bid: Order, incomingAsk: bool, incomingBid: bool, price: nat, qty: nat, r: FillResult, f: Desk)
    ensures var d := Settle(b, ask, bid, incomingAsk, incomingBid, price, qty, r, f).depth;
            d.latestTradesDiff == b.depth.latestTradesDiff + if r.traded then [Depths.Trade(price, qty)] else []
  {
    if r.traded {
      var b0 := b.(m := r.m);
      var b1 := b0.(depth := TradeAdded(b0.depth, price, qty));
      var b2 := if incomingBid then b1 else CloseDepth(b1, bid, qty);
      var b3 := if incomingAsk then b2 else CloseDepth(b2, ask, qty);
      var w := Woken(StopType(AskSide), b3.ask.stops, price).0;
      AddStopsReportsNothing(b3.depth, AskSide, w);
      AddStopsReportsNothing(AddStops(b3.depth, AskSide, w), BidSide, Woken(StopType(BidSide), b3.bid.stops, price).0);
    }
    hide TriggerHalf, AddStops, WakeAll, Woken;
  }

  lemma TurnReports(b: Book, o: Order, f: Desk)
    requires HasMatch(b, o)
    ensures PlayRound(b, o, f).b.depth.latestTradesDiff == b.depth.latestTradesDiff + Reported(NextDeal(b, o, f))
  {
    hide Settle, Heap.PushAll, Heap.Pop, TradePrice, SkipOwn;
    var s := Opposite(o.id.side);
    var (top, _, rest) := TopMatch(b, o);
    var b0 := b.SetLive(s, rest);
    if s == BidSide {
      SettleReports(b0, o, top.value, true, false, NextPrice(b, o), NextQty(b, o), NextFill(b, o, f), f);
    } else {
      SettleReports(b0, top.value, o, false, true, NextPrice(b, o), NextQty(b, o), NextFill(b, o, f), f);
    }
    TermsAre(b, o);
  }

  lemma TermsAre(b: Book, o: Order)
    requires HasMatch(b, o)
    ensures var top := TopMatch(b, o).0.value;
            TradeTerms(b, if o.id.side == AskSide then o else top, if o.id.side == AskSide then top else o)
            == (NextPrice(b, o), NextQty(b, o))
  {
    hide TopMatch, TradePrice, Unfulfilled;
  }

  lemma {:induction false} ReportedConcat(xs: seq<Deal>, ys: seq<Deal>)
    ensures Reported(xs + ys) == Reported(xs) + Reported(ys)
    decreases |xs|
  {
    if xs == [] {
      assert xs + ys == ys;
    } else {
      assert (xs + ys)[1..] == xs[1..] + ys;
      ReportedConcat(xs[1..], ys);
    }
  }

  /** The listeners are told of exactly these deals, at these prices and quantities. */
  lemma {:induction false} DealsReported(b: Book, o: Order, f: Desk)
    ensures Process(b, o, f).b.depth.latestTradesDiff == b.depth.latestTradesDiff + Reported(Deals(b, o, f))
    decreases |b.Live(Opposite(o.id.side))| + |b.Of(Opposite(o.id.side)).stops|
  {
    hide PlayRound, HasMatch, NextDeal, Rest;
    if HasMatch(b, o) {
      var r := PlayRound(b, o, f);
      TurnReports(b, o, f);
      if r.topDone && !r.done {
        ReportedConcat(NextDeal(b, o, f), Deals(r.b, o, f));
        DealsReported(r.b, o, f);
      } else {
        assert NextDeal(b, o, f) + [] == NextDeal(b, o, f);
      }
    } else {
      RestReportsNothing(b, o);
    }
  }

  lemma RestReportsNothing(b: Book, o: Order)
    ensures Rest(b, o).depth.latestTradesDiff == b.depth.latestTradesDiff
  {
    hide SkipOwn, Heap.PushAll, Heap.Push;
  }

  // -------------------------------------------------------------------------
  // What a trade does to its stock
  // -------------------------------------------------------------------------

  /** How many of the last trades count: one, two from 200 stocks on, three from 300. */
  function Counted(s: Stock): nat {
    var all := s.stocksInExchange + s.stocksInMarket;
    if all < 200 then 1 else if all < 300 then 2 else 3
  }

  lemma CountedIs(s: Stock)
    ensures AverageStockCount(s) == Counted(s)
  {
  }

  /** From s to r by a trade of qty at price: the gap between average and price closes by qty parts in as many
      as count; the current price is the average, rounded down, and the extremes follow it. */
  ghost predicate MovedBy(s: Stock, r: Stock, price: nat, qty: nat, saved: bool) {
    var n := Counted(s);
    && r.volume == s.volume + qty && r.stocksInExchange == s.stocksInExchange && r.stocksInMarket == s.stocksInMarket
    && r.open == s.open
    && n as real * (price as real - r.avgLastPrice) == (n - Min(qty, n)) as real * (price as real - s.avgLastPrice)
    && if saved then
         && r.lastTradePrice == price && (qty >= n ==> r.currentPrice == price)
         && (r.avgLastPrice >= 0.0 ==> r.currentPrice as real <= r.avgLastPrice < r.currentPrice as real + 1.0)
         && r.high >= s.high && r.high >= r.currentPrice && r.dayHigh >= s.dayHigh && r.dayHigh >= r.currentPrice
         && r.allTimeHigh >= s.allTimeHigh && r.allTimeHigh >= r.currentPrice
       else
         r == s.(volume := r.volume, avgLastPrice := r.avgLastPrice)
  }

  lemma PriceMoves(s: Stock, price: nat, qty: nat)
    ensures MovedBy(s, PriceUpdated(VolumeUpdated(s, qty), price, qty), price, qty, true)
    ensures MovedBy(s, AverageUpdated(VolumeUpdated(s, qty), price, qty), price, qty, false)
  {
    CountedIs(s);
    PriceHistory.TradeMovesPrice(s, PriceHistory.Trade(price, qty));
    assert NewAverage(VolumeUpdated(s, qty), price, qty) == NewAverage(s, price, qty);
    hide AverageStockCount, CountFor, Moved;
  }

  /** A fill that trades moves the price of its stock by its own price and quantity, and no other stock's; if
      the price cannot be saved, only the average and the volume move. */
  lemma FillMovesPrice(m: Models, a: Order, b: Order, price: nat, qty: nat, budget: nat)
    requires Trades(m, a, b, price, qty, budget) && a.stockId in m.stocks
    ensures var m' := Accounts.Fill(m, a, b, price, qty, budget).m;
            && m'.stocks.Keys == m.stocks.Keys
            && MovedBy(m.stocks[a.stockId], m'.stocks[a.stockId], price, qty, budget > Accounts.WritesNeeded(m, a, b, price, qty))
            && forall k :: k in m.stocks && k != a.stockId ==> m'.stocks[k] == m.stocks[k]
  {
    FillGuards(m, a, b, price, qty, budget);
    FillStocks(m, a, b, price, qty, budget);
    PriceMoves(m.stocks[a.stockId], price, qty);
    hide Accounts.Fill, MovedBy, PriceUpdated, AverageUpdated, VolumeUpdated, Accounts.WritesNeeded, Trades, ClosesShort;
  }

  lemma StoreKeepsStocks()
    ensures forall m, a, b, r :: Accounts.Store(m, a, b, r).stocks == m.stocks
  {
  }

  lemma FillStocks(m: Models, a: Order, b: Order, price: nat, qty: nat, budget: nat)
    requires a.userId in m.users && b.userId in m.users
    ensures var r := Accounts.Fill(m, a, b, price, qty, budget);
            r.m.stocks == if r.traded then
                            Accounts.StockAfterTrade(m, a.stockId, price, qty, budget > Accounts.WritesNeeded(m, a, b, price, qty))
                          else m.stocks
  {
    hide Accounts.AskTax, Accounts.BidTax, Accounts.StockAfterTrade, Accounts.FillWrites, Accounts.FillCore, Accounts.Store;
    StoreKeepsStocks();
  }

  // -------------------------------------------------------------------------
  // Prices over runs
  // -------------------------------------------------------------------------

  /** Average and current price of stock k lie between lo and hi. */
  ghost predicate InRange(m: Models, k: nat, lo: nat, hi: nat) {
    k in m.stocks && lo as real <= m.stocks[k].avgLastPrice <= hi as real && lo <= m.stocks[k].currentPrice <= hi
  }

  /** A trade of stock k in this step is at a price between lo and hi. */
  ghost predicate TradesInRange(op: Accounts.Op, k: nat, lo: nat, hi: nat) {
    op.FillOp? && op.ask.stockId == k ==> lo <= op.price <= hi
  }

  /** No stock is added, and none of the prices changes. */
  ghost predicate PricesKept(m: Models, m': Models) {
    && m'.stocks.Keys == m.stocks.Keys
    && forall k :: k in m.stocks ==> m'.stocks[k].currentPrice == m.stocks[k].currentPrice
                                     && m'.stocks[k].avgLastPrice == m.stocks[k].avgLastPrice
  }

  lemma SamePrices(m: Models, m': Models)
    requires m'.stocks == m.stocks
    ensures PricesKept(m, m')
  {
  }

  lemma BiddingKeepsStocks(m: Models, o: Order, fee: nat, budget: nat)
    ensures Accounts.PlaceBid(m, o, fee, budget).m.stocks == m.stocks
  {
    hide Accounts.BidError, Accounts.OrderPrice, Wrap64, Accounts.Row;
  }

  lemma AskPlacedStocks(m: Models, o: Order, fee: nat, short: int)
    requires o.userId in m.users
    ensures Accounts.AskPlaced(m, o, fee, short).stocks == m.stocks
  {
    hide Accounts.BankUpdated, Accounts.Negate32, Wrap64, Accounts.Row, Accounts.Available, CurrentPrice;
  }

  lemma AskingKeepsStocks(m: Models, o: Order, fee: nat, budget: nat)
    ensures Accounts.PlaceAsk(m, o, fee, budget).m.stocks == m.stocks
  {
    hide Accounts.PriceError, Accounts.ShortSellQty, Accounts.ActiveLends, Accounts.Available, Accounts.AskPlaced;
    if Accounts.PlaceAsk(m, o, fee, budget).recorded {
      AskPlacedStocks(m, o, fee, Accounts.ShortSellQty(m, o));
    }
  }

  lemma ExchangeKeepsPrices(m: Models, u: nat, s: nat, q: nat)
    requires u in m.users && s in m.stocks && 0 < q <= m.stocks[s].stocksInExchange
    ensures PricesKept(m, Accounts.ExchangeBought(m, u, s, q))
  {
    hide Taxes.BuyTax, Taxes.Bought, Accounts.TaxRows, Wrap64, Accounts.Row, Accounts.SummaryOf;
  }

  lemma BuyingKeepsPrices(m: Models, u: nat, s: nat, qty: nat, budget: nat)
    ensures PricesKept(m, Accounts.BuyFromExchange(m, u, s, qty, budget).m)
  {
    hide Taxes.BuyTax, Accounts.BuyWrites, Accounts.ExchangeBought, PricesKept;
    SamePrices(m, m);
    var q := Accounts.BoughtQty(m, s, qty);
    if Accounts.BuyFromExchange(m, u, s, qty, budget).error.None? {
      ExchangeKeepsPrices(m, u, s, q);
    }
  }

  lemma MortgagingKeepsPrices(m: Models, u: nat, s: nat, qty: int, price: nat, budget: nat)
    ensures PricesKept(m, Accounts.PerformMortgage(m, u, s, qty, price, budget).m)
  {
    hide Accounts.StockCount, Accounts.DepositAmount, Accounts.RetrieveAmount, Wrap64, PricesKept;
    SamePrices(m, Accounts.PerformMortgage(m, u, s, qty, price, budget).m);
  }

  /** Only trades move prices. */
  lemma OthersKeepPrices(m: Models, op: Accounts.Op)
    requires !op.FillOp?
    ensures PricesKept(m, Accounts.Do(m, op))
  {
    hide Accounts.PlaceBid, Accounts.PlaceAsk, Accounts.Cancel, Accounts.BuyFromExchange, Accounts.PerformMortgage, Accounts.BankUpdated,
         PricesKept;
    match op
    case PlaceBidOp(o, fee, budget) =>
      BiddingKeepsStocks(m, o, fee, budget);
      SamePrices(m, Accounts.Do(m, op));
    case PlaceAskOp(o, fee, budget) =>
      AskingKeepsStocks(m, o, fee, budget);
      SamePrices(m, Accounts.Do(m, op));
    case CancelOp(u, o, budget) =>
      DoubleEntry.CancelElsewhere(m, u, o, budget);
      SamePrices(m, Accounts.Do(m, op));
    case BuyOp(u, s, qty, budget) => BuyingKeepsPrices(m, u, s, qty, budget);
    case MortgageOp(u, s, qty, price, budget) => MortgagingKeepsPrices(m, u, s, qty, price, budget);
    case SquareOffOp(i) => SamePrices(m, Accounts.Do(m, op));
    case WakeOp(o, budget) => SamePrices(m, Accounts.Do(m, op));
  }

  lemma TradeStaysInRange(s: Stock, price: nat, qty: nat, lo: nat, hi: nat, saved: bool)
    requires lo as real <= s.avgLastPrice <= hi as real && lo <= s.currentPrice <= hi && lo <= price <= hi
    ensures var v := VolumeUpdated(s, qty); var r := if saved then PriceUpdated(v, price, qty) else AverageUpdated(v, price, qty);
            lo as real <= r.avgLastPrice <= hi as real && lo <= r.currentPrice <= hi
  {
    PriceHistory.AverageInRange(VolumeUpdated(s, qty), price, qty, lo as real, hi as real);
    hide NewAverage;
  }

  lemma StepStaysInRange(m: Models, op: Accounts.Op, k: nat, lo: nat, hi: nat)
    requires InRange(m, k, lo, hi) && TradesInRange(op, k, lo, hi)
    ensures InRange(Accounts.Do(m, op), k, lo, hi)
  {
    if op.FillOp? {
      if op.ask.userId in m.users && op.bid.userId in m.users {
        FillStocks(m, op.ask, op.bid, op.price, op.qty, op.budget);
        hide Accounts.Fill, PriceUpdated, AverageUpdated, VolumeUpdated, Accounts.WritesNeeded;
        if op.ask.stockId == k {
          TradeStaysInRange(m.stocks[k], op.price, op.qty, lo, hi, op.budget > Accounts.WritesNeeded(m, op.ask, op.bid, op.price, op.qty));
        }
      }
    } else {
      OthersKeepPrices(m, op);
      hide Accounts.Do;
    }
  }

  /** Over any run of all operations, whatever writes fail, the average and the price of a stock stay between
      the lowest and the highest price it traded at or started from. */
  lemma {:induction false} PricesStayInRange(m: Models, ops: seq<Accounts.Op>, k: nat, lo: nat, hi: nat)
    requires InRange(m, k, lo, hi) && forall op :: op in ops ==> TradesInRange(op, k, lo, hi)
    ensures InRange(Accounts.RunOps(m, ops), k, lo, hi)
    decreases |ops|
  {
    hide InRange, Accounts.Do, TradesInRange;
    if ops != [] {
      StepStaysInRange(m, ops[0], k, lo, hi);
      PricesStayInRange(Accounts.Do(m, ops[0]), ops[1..], k, lo, hi);
    }
  }
}
