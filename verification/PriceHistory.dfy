/** Prices and their bars: the price follows the trades' range, one-minute bars are the exact range of
    the minute's prices, and longer bars are what recording less often would have produced. */
module PriceHistory {
  import opened Stocks
  import opened Words
  import Taxes

  datatype Trade = Trade(price: nat, quantity: nat)

  function AfterTrade(s: Stock, t: Trade): Stock {
    PriceUpdated(VolumeUpdated(s, t.quantity), t.price, t.quantity)
  }

  function AfterTrades(s: Stock, ts: seq<Trade>): Stock
    decreases |ts|
  {
    if ts == [] then s else AfterTrades(AfterTrade(s, ts[0]), ts[1..])
  }

  // -------------------------------------------------------------------------
  // The price stays in range
  // -------------------------------------------------------------------------

  /** The running average is a weighted mean of itself and the new price. */
  lemma AverageIsMean(s: Stock, price: nat, quantity: nat)
    requires quantity > 0
    ensures var n := AverageStockCount(s);
            var q := Min(quantity, n);
            NewAverage(s, price, quantity)
            == Taxes.Average((n - q) as real, s.avgLastPrice, q as real, price as real)
  {
    var n := AverageStockCount(s);
    var q := Min(quantity, n);
    MeanArithmetic(s.avgLastPrice, price as real, q as real, n as real);
  }

  /** A trade brings the average closer to its price by as many parts in n as it has stocks, and a
      trade of n stocks or more sets the price. */
  lemma TradeMovesPrice(s: Stock, t: Trade)
    ensures var n, r, p := AverageStockCount(s), AfterTrade(s, t), t.price as real;
            && n as real * (p - r.avgLastPrice) == (n - Min(t.quantity, n)) as real * (p - s.avgLastPrice)
            && (t.quantity >= n ==> r.currentPrice == t.price)
  {
    var n, p, avg := AverageStockCount(s), t.price as real, s.avgLastPrice;
    var q := Min(t.quantity, n) as real;
    Taxes.QuotientTimes(q * (p - avg), n as real);
    MovedExactly(n as real, q, p, avg, q * (p - avg) / n as real);
    assert AfterTrade(s, t).avgLastPrice == avg + q * (p - avg) / n as real;
    if t.quantity >= n {
      Taxes.QuotientUnique(q * (p - avg), n as real, p - avg);
    }
  }

  lemma MovedExactly(n: real, q: real, p: real, avg: real, step: real)
    requires step * n == q * (p - avg)
    ensures n * (p - (avg + step)) == (n - q) * (p - avg)
  {
  }

  lemma MeanArithmetic(avg: real, price: real, q: real, n: real)
    requires n != 0.0
    ensures avg + q * (price - avg) / n == Taxes.Average(n - q, avg, q, price)
  {
    var d := q * (price - avg) / n;
    Taxes.QuotientTimes(q * (price - avg), n);
    assert (n - q) * avg + q * price == n * avg + q * (price - avg);
    assert (avg + d) * n == n * avg + d * n;
    Taxes.QuotientUnique((n - q) * avg + q * price, n, avg + d);
  }

  lemma AverageInRange(s: Stock, price: nat, quantity: nat, lo: real, hi: real)
    requires Taxes.Between(lo, s.avgLastPrice, hi) && Taxes.Between(lo, price as real, hi)
    ensures Taxes.Between(lo, NewAverage(s, price, quantity), hi)
  {
    if quantity > 0 {
      AverageIsMean(s, price, quantity);
      var n := AverageStockCount(s);
      var q := Min(quantity, n);
      hide AverageStockCount, NewAverage, Moved, CountFor, Taxes.Average;
      Taxes.AverageBetween((n - q) as real, s.avgLastPrice, q as real, price as real, lo, hi);
    }
  }

  /** Over any trades within a range of prices the average stays within that range, and so does the
      current price, truncation included. */
  lemma {:induction false} PriceInRange(s: Stock, ts: seq<Trade>, lo: nat, hi: nat)
    requires Taxes.Between(lo as real, s.avgLastPrice, hi as real)
    requires forall t :: t in ts ==> lo <= t.price <= hi
    ensures var r := AfterTrades(s, ts);
            Taxes.Between(lo as real, r.avgLastPrice, hi as real) && (ts != [] ==> lo <= r.currentPrice <= hi)
    decreases |ts|
  {
    if ts != [] {
      var s' := AfterTrade(s, ts[0]);
      AverageInRange(VolumeUpdated(s, ts[0].quantity), ts[0].price, ts[0].quantity, lo as real, hi as real);
      hide NewAverage;
      assert lo <= s'.currentPrice <= hi;
      PriceInRange(s', ts[1..], lo, hi);
    }
  }

  // -------------------------------------------------------------------------
  // Highs and lows
  // -------------------------------------------------------------------------

  /** The prices the stock takes, one after each trade. */
  function Prices(s: Stock, ts: seq<Trade>): seq<nat>
    decreases |ts|
  {
    if ts == [] then []
    else
      var s' := AfterTrade(s, ts[0]);
      [s'.currentPrice] + Prices(s', ts[1..])
  }

  function Highest(a: nat, xs: seq<nat>): (r: nat)
    ensures a <= r && (forall x :: x in xs ==> x <= r) && (r == a || r in xs)
    decreases |xs|
  {
    assert xs != [] ==> xs == [xs[0]] + xs[1..];
    if xs == [] then a else Highest(Max(a, xs[0]), xs[1..])
  }

  function Lowest(a: nat, xs: seq<nat>): (r: nat)
    ensures r <= a && (forall x :: x in xs ==> r <= x) && (r == a || r in xs)
    decreases |xs|
  {
    assert xs != [] ==> xs == [xs[0]] + xs[1..];
    if xs == [] then a else Lowest(Min(a, xs[0]), xs[1..])
  }

  /** Although a new high skips the test for a new low, the three pairs of highs and lows are exactly
      the highest and lowest prices seen. */
  lemma {:induction false} RangesExact(s: Stock, ts: seq<Trade>)
    requires s.low <= s.high && s.dayLow <= s.dayHigh && s.allTimeLow <= s.allTimeHigh
    ensures var r, ps := AfterTrades(s, ts), Prices(s, ts);
            && r.high == Highest(s.high, ps) && r.low == Lowest(s.low, ps)
            && r.dayHigh == Highest(s.dayHigh, ps) && r.dayLow == Lowest(s.dayLow, ps)
            && r.allTimeHigh == Highest(s.allTimeHigh, ps) && r.allTimeLow == Lowest(s.allTimeLow, ps)
            && r.open == s.open
    decreases |ts|
  {
    if ts != [] {
      var s' := AfterTrade(s, ts[0]);
      hide NewAverage, Truncate;
      RangesExact(s', ts[1..]);
      assert Prices(s, ts)[1..] == Prices(s', ts[1..]);
    }
  }

  // -------------------------------------------------------------------------
  // One-minute bars
  // -------------------------------------------------------------------------

  datatype Bar = Bar(open: nat, high: nat, low: nat, close: nat, volume: nat)

  function BarOf(s: Stock): Bar {
    Bar(s.open, s.high, s.low, s.currentPrice, s.volume)
  }

  /** recordOneMinuteOHLC: the next bar starts at this one's close. */
  function Restarted(s: Stock): Stock {
    s.(open := s.currentPrice, high := s.currentPrice, low := s.currentPrice, volume := 0)
  }

  ghost predicate Fresh(s: Stock) {
    s.open == s.high == s.low == s.currentPrice && s.volume == 0
    && s.dayLow <= s.dayHigh && s.allTimeLow <= s.allTimeHigh
  }

  ghost predicate ProperBar(b: Bar) {
    b.low <= b.open <= b.high && b.low <= b.close <= b.high
  }

  function Last(a: nat, xs: seq<nat>): (r: nat)
    ensures r == a || r in xs
  {
    if xs == [] then a else xs[|xs| - 1]
  }

  function Volume(ts: seq<Trade>): nat
    decreases |ts|
  {
    if ts == [] then 0 else ts[0].quantity + Volume(ts[1..])
  }

  /** The bar that a minute's trades should have. */
  function ExpectedBar(s: Stock, ts: seq<Trade>): Bar {
    var p, ps := s.currentPrice, Prices(s, ts);
    Bar(p, Highest(p, ps), Lowest(p, ps), Last(p, ps), Volume(ts))
  }

  lemma {:induction false} CloseAndVolume(s: Stock, ts: seq<Trade>)
    ensures AfterTrades(s, ts).currentPrice == Last(s.currentPrice, Prices(s, ts))
    ensures AfterTrades(s, ts).volume == s.volume + Volume(ts)
    decreases |ts|
  {
    if ts != [] {
      hide NewAverage, Truncate;
      CloseAndVolume(AfterTrade(s, ts[0]), ts[1..]);
    }
  }

  /** A minute's bar opens at the close before it and spans exactly the minute's prices. */
  lemma BarExact(s: Stock, ts: seq<Trade>)
    requires Fresh(s)
    ensures BarOf(AfterTrades(s, ts)) == ExpectedBar(s, ts)
    ensures ProperBar(ExpectedBar(s, ts))
    ensures Fresh(Restarted(AfterTrades(s, ts)))
  {
    RangesExact(s, ts);
    CloseAndVolume(s, ts);
  }

  /** The bars of a recorder's minutes, the newest first, and the stock afterwards. */
  function Record(s: Stock, minutes: seq<seq<Trade>>): (seq<Bar>, Stock)
    decreases |minutes|
  {
    if minutes == [] then ([], s)
    else
      var k := |minutes| - 1;
      var (bars, s1) := Record(s, minutes[..k]);
      var s2 := AfterTrades(s1, minutes[k]);
      ([BarOf(s2)] + bars, Restarted(s2))
  }

  /** Every bar has low <= open, close <= high and opens at the previous close. */
  lemma {:induction false} BarsChain(s: Stock, minutes: seq<seq<Trade>>)
    requires Fresh(s)
    ensures var (bars, s') := Record(s, minutes);
            && |bars| == |minutes| && Fresh(s')
            && (forall b :: b in bars ==> ProperBar(b))
            && (forall i :: 0 < i < |bars| ==> bars[i - 1].open == bars[i].close)
            && s'.currentPrice == (if bars == [] then s.currentPrice else bars[0].close)
            && (bars != [] ==> bars[|bars| - 1].open == s.currentPrice)
    decreases |minutes|
  {
    if minutes != [] {
      var k := |minutes| - 1;
      BarsChain(s, minutes[..k]);
      BarExact(Record(s, minutes[..k]).1, minutes[k]);
    }
  }

  // -------------------------------------------------------------------------
  // Longer bars
  // -------------------------------------------------------------------------

  function Highs(bars: seq<Bar>): seq<nat> {
    seq(|bars|, i requires 0 <= i < |bars| => bars[i].high)
  }

  function Lows(bars: seq<Bar>): seq<nat> {
    seq(|bars|, i requires 0 <= i < |bars| => bars[i].low)
  }

  function TotalVolume(bars: seq<Bar>): nat
    decreases |bars|
  {
    if bars == [] then 0 else bars[0].volume + TotalVolume(bars[1..])
  }

  /** What recordNMinuteOHLC makes of the bars in its window, the newest first. */
  function Combined(bars: seq<Bar>): Bar
    requires bars != []
  {
    var open := bars[|bars| - 1].open;
    Bar(open, Highest(open, Highs(bars)), Lowest(open, Lows(bars)), bars[0].close, TotalVolume(bars))
  }

  /** Two consecutive bars put together. */
  function Joined(newer: Bar, older: Bar): Bar {
    Bar(older.open, Max(newer.high, older.high), Min(newer.low, older.low), newer.close, newer.volume + older.volume)
  }

  lemma {:induction false} HighestConcat(a: nat, xs: seq<nat>, ys: seq<nat>)
    ensures Highest(a, xs + ys) == Highest(Highest(a, xs), ys)
    decreases |xs|
  {
    if xs == [] {
      assert xs + ys == ys;
    } else {
      assert (xs + ys)[1..] == xs[1..] + ys;
      HighestConcat(Max(a, xs[0]), xs[1..], ys);
    }
  }

  lemma {:induction false} LowestConcat(a: nat, xs: seq<nat>, ys: seq<nat>)
    ensures Lowest(a, xs + ys) == Lowest(Lowest(a, xs), ys)
    decreases |xs|
  {
    if xs == [] {
      assert xs + ys == ys;
    } else {
      assert (xs + ys)[1..] == xs[1..] + ys;
      LowestConcat(Min(a, xs[0]), xs[1..], ys);
    }
  }

  lemma {:induction false} VolumeConcat(xs: seq<Bar>, ys: seq<Bar>)
    ensures TotalVolume(xs + ys) == TotalVolume(xs) + TotalVolume(ys)
    decreases |xs|
  {
    if xs == [] {
      assert xs + ys == ys;
    } else {
      assert (xs + ys)[1..] == xs[1..] + ys;
      VolumeConcat(xs[1..], ys);
    }
  }

  /** Combining two consecutive windows and joining the results gives the bar of the whole window. */
  lemma CombinedSplits(newer: seq<Bar>, older: seq<Bar>)
    requires newer != [] && older != [] && forall b :: b in newer || b in older ==> ProperBar(b)
    ensures Combined(newer + older) == Joined(Combined(newer), Combined(older))
  {
    var open, mid := older[|older| - 1].open, newer[|newer| - 1].open;
    assert Highs(newer + older) == Highs(newer) + Highs(older) && Lows(newer + older) == Lows(newer) + Lows(older);
    assert newer[|newer| - 1] in newer && older[|older| - 1] in older;
    assert mid <= Highs(newer)[|newer| - 1] && Lows(newer)[|newer| - 1] <= mid;
    VolumeConcat(newer, older);
    hide Highest, Lowest, Highs, Lows, TotalVolume;
    HighestConcat(open, Highs(newer), Highs(older));
    LowestConcat(open, Lows(newer), Lows(older));
    SameHighest(open, mid, Highs(newer), Highs(older));
    SameLowest(open, mid, Lows(newer), Lows(older));
  }

  lemma {:induction false} HighestFrom(a: nat, b: nat, xs: seq<nat>)
    ensures Highest(Max(a, b), xs) == Max(a, Highest(b, xs))
    decreases |xs|
  {
    if xs != [] {
      assert Max(Max(a, b), xs[0]) == Max(a, Max(b, xs[0]));
      HighestFrom(a, Max(b, xs[0]), xs[1..]);
    }
  }

  lemma {:induction false} LowestFrom(a: nat, b: nat, xs: seq<nat>)
    ensures Lowest(Min(a, b), xs) == Min(a, Lowest(b, xs))
    decreases |xs|
  {
    if xs != [] {
      assert Min(Min(a, b), xs[0]) == Min(a, Min(b, xs[0]));
      LowestFrom(a, Min(b, xs[0]), xs[1..]);
    }
  }

  lemma SameHighest(open: nat, mid: nat, xs: seq<nat>, ys: seq<nat>)
    requires xs != [] && mid <= xs[|xs| - 1]
    ensures Highest(Highest(open, xs), ys) == Max(Highest(mid, xs), Highest(open, ys))
  {
    assert xs[|xs| - 1] in xs;
    assert Highest(open, xs) == Max(Highest(mid, xs), open);
    HighestFrom(Highest(mid, xs), open, ys);
  }

  lemma SameLowest(open: nat, mid: nat, xs: seq<nat>, ys: seq<nat>)
    requires xs != [] && xs[|xs| - 1] <= mid
    ensures Lowest(Lowest(open, xs), ys) == Min(Lowest(mid, xs), Lowest(open, ys))
  {
    assert xs[|xs| - 1] in xs;
    assert Lowest(open, xs) == Min(Lowest(mid, xs), open);
    LowestFrom(Lowest(mid, xs), open, ys);
  }

  // -------------------------------------------------------------------------
  // Recording less often
  // -------------------------------------------------------------------------

  lemma {:induction false} PricesConcat(s: Stock, xs: seq<Trade>, ys: seq<Trade>)
    ensures Prices(s, xs + ys) == Prices(s, xs) + Prices(AfterTrades(s, xs), ys)
    ensures AfterTrades(s, xs + ys) == AfterTrades(AfterTrades(s, xs), ys)
    ensures Volume(xs + ys) == Volume(xs) + Volume(ys)
    decreases |xs|
  {
    if xs == [] {
      assert xs + ys == ys;
    } else {
      assert (xs + ys)[0] == xs[0] && (xs + ys)[1..] == xs[1..] + ys;
      hide NewAverage, PriceUpdated;
      PricesConcat(AfterTrade(s, xs[0]), xs[1..], ys);
    }
  }

  /** A stock and the same one with its bar restarted. */
  ghost predicate SameMarket(s: Stock, r: Stock) {
    && s.currentPrice == r.currentPrice && s.avgLastPrice == r.avgLastPrice
    && s.stocksInExchange == r.stocksInExchange && s.stocksInMarket == r.stocksInMarket
  }

  /** Restarting the bar does not affect the prices to come. */
  lemma {:induction false} PricesIgnoreBars(s: Stock, r: Stock, ts: seq<Trade>)
    requires SameMarket(s, r)
    ensures Prices(s, ts) == Prices(r, ts) && SameMarket(AfterTrades(s, ts), AfterTrades(r, ts))
    decreases |ts|
  {
    if ts != [] {
      hide Moved, CountFor, Truncate;
      PricesIgnoreBars(AfterTrade(s, ts[0]), AfterTrade(r, ts[0]), ts[1..]);
    }
  }

  function AllTrades(minutes: seq<seq<Trade>>): seq<Trade>
    decreases |minutes|
  {
    if minutes == [] then [] else AllTrades(minutes[..|minutes| - 1]) + minutes[|minutes| - 1]
  }

  /** The extremes of two runs of prices, the second starting somewhere within the first. */
  lemma ExtremesJoin(p: nat, mid: nat, ps: seq<nat>, qs: seq<nat>)
    requires Lowest(p, ps) <= mid <= Highest(p, ps)
    ensures Highest(p, ps + qs) == Max(Highest(mid, qs), Highest(p, ps))
    ensures Lowest(p, ps + qs) == Min(Lowest(mid, qs), Lowest(p, ps))
  {
    HighestConcat(p, ps, qs);
    LowestConcat(p, ps, qs);
    HighestFrom(Highest(p, ps), mid, qs);
    LowestFrom(Lowest(p, ps), mid, qs);
    hide Highest, Lowest;
  }

  /** The bar of two spans of trades is the bars of each, joined. */
  lemma SpansJoin(s: Stock, s1: Stock, xs: seq<Trade>, ys: seq<Trade>)
    requires SameMarket(AfterTrades(s, xs), s1)
    ensures ExpectedBar(s, xs + ys) == Joined(ExpectedBar(s1, ys), ExpectedBar(s, xs))
  {
    hide Prices, AfterTrades, Volume, Highest, Lowest;
    PricesConcat(s, xs, ys);
    PricesIgnoreBars(AfterTrades(s, xs), s1, ys);
    CloseAndVolume(s, xs);
    ExtremesJoin(s.currentPrice, s1.currentPrice, Prices(s, xs), Prices(s1, ys));
  }

  /** Combining consecutive one-minute bars gives exactly the bar that a recorder running once over
      the whole time would have recorded. */
  lemma {:induction false} CombinedIsRecordedOnce(s: Stock, minutes: seq<seq<Trade>>)
    requires Fresh(s) && minutes != []
    ensures var (bars, s') := Record(s, minutes);
            && bars != [] && Combined(bars) == BarOf(AfterTrades(s, AllTrades(minutes)))
            && SameMarket(AfterTrades(s, AllTrades(minutes)), s')
    decreases |minutes|
  {
    var k := |minutes| - 1;
    var (bars, s1) := Record(s, minutes[..k]);
    var s2 := AfterTrades(s1, minutes[k]);
    BarsChain(s, minutes[..k]);
    BarsChain(s, minutes);
    BarExact(s1, minutes[k]);
    BarExact(s, AllTrades(minutes));
    if k == 0 {
      assert minutes[..k] == [] && AllTrades(minutes) == [] + minutes[k] == minutes[k];
      assert [BarOf(s2)] + bars == [BarOf(s2)];
      OneBar(BarOf(s2));
    } else {
      CombinedIsRecordedOnce(s, minutes[..k]);
      BarExact(s, AllTrades(minutes[..k]));
      CombinedSplits([BarOf(s2)], bars);
      OneBar(BarOf(s2));
      SpansJoin(s, s1, AllTrades(minutes[..k]), minutes[k]);
      PricesConcat(s, AllTrades(minutes[..k]), minutes[k]);
      PricesIgnoreBars(AfterTrades(s, AllTrades(minutes[..k])), s1, minutes[k]);
    }
  }

  lemma OneBar(b: Bar)
    requires ProperBar(b)
    ensures Combined([b]) == b
  {
    assert Highs([b]) == [b.high] && Lows([b]) == [b.low];
    assert b.high in [b.high] && b.low in [b.low];
    assert TotalVolume([b]) == b.volume + TotalVolume([b][1..]) == b.volume;
  }
}
