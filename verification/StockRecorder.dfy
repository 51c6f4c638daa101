/** The stock objects and the recorder of their bars, step by step (models/Stock.go,
    models/StockHistory.go). */
module StockRecorder {
  import opened Wrappers
  import opened Stocks
  import opened Words
  import opened PriceHistory

  // -------------------------------------------------------------------------
  // A stock in memory
  // -------------------------------------------------------------------------

  lemma AverageIgnoresLastTrade(s: Stock, last: nat, price: nat, quantity: nat)
    ensures NewAverage(s.(lastTradePrice := last), price, quantity) == NewAverage(s, price, quantity)
  {
    hide Moved, CountFor;
  }

  class StockRow {
    var currentPrice: nat
    var avgLastPrice: real
    var lastTradePrice: nat
    var stocksInExchange: nat
    var stocksInMarket: nat
    var dayHigh: nat
    var dayLow: nat
    var allTimeHigh: nat
    var allTimeLow: nat
    var open: nat
    var high: nat
    var low: nat
    var volume: nat

    function Value(): Stock
      reads this
    {
      Stock(currentPrice, avgLastPrice, lastTradePrice, stocksInExchange, stocksInMarket,
            dayHigh, dayLow, allTimeHigh, allTimeLow, open, high, low, volume)
    }

    constructor (s: Stock)
      ensures Value() == s
    {
      currentPrice, avgLastPrice, lastTradePrice := s.currentPrice, s.avgLastPrice, s.lastTradePrice;
      stocksInExchange, stocksInMarket := s.stocksInExchange, s.stocksInMarket;
      dayHigh, dayLow, allTimeHigh, allTimeLow := s.dayHigh, s.dayLow, s.allTimeHigh, s.allTimeLow;
      open, high, low, volume := s.open, s.high, s.low, s.volume;
    }

    method Averaged(price: nat, quantity: nat) returns (average: real)
      ensures average == NewAverage(Value(), price, quantity)
    {
      var averageStockCount := Min(Max(STOCK_AVERAGE_PERCENT * (stocksInExchange + stocksInMarket) / 100, 1),
                                   MAX_AVERAGE_STOCK_COUNT);
      assert averageStockCount == AverageStockCount(Value());
      var finalQuantity := Min(quantity, averageStockCount);
      var priceDifference := price as real - avgLastPrice;
      average := avgLastPrice + finalQuantity as real * priceDifference / averageStockCount as real;
    }

    /** Move the highs and lows of the day, of the minute and of all time. */
    method TrackPrice()
      modifies `dayHigh, `dayLow, `high, `low, `allTimeHigh, `allTimeLow
      ensures dayHigh == Max(old(dayHigh), currentPrice)
      ensures dayLow == if currentPrice > old(dayHigh) then old(dayLow) else Min(old(dayLow), currentPrice)
      ensures high == Max(old(high), currentPrice)
      ensures low == if currentPrice > old(high) then old(low) else Min(old(low), currentPrice)
      ensures allTimeHigh == Max(old(allTimeHigh), currentPrice)
      ensures allTimeLow == if currentPrice > old(allTimeHigh) then old(allTimeLow) else Min(old(allTimeLow), currentPrice)
    {
      if currentPrice > dayHigh {
        dayHigh := currentPrice;
      } else if currentPrice < dayLow {
        dayLow := currentPrice;
      }
      if currentPrice > high {
        high := currentPrice;
      } else if currentPrice < low {
        low := currentPrice;
      }
      if currentPrice > allTimeHigh {
        allTimeHigh := currentPrice;
      } else if currentPrice < allTimeLow {
        allTimeLow := currentPrice;
      }
    }

    /** saved: whether the stock's row could be written. If not the stock is put back, but not the
        average, which is kept in a map of its own. */
    method UpdateStockPrice(price: nat, quantity: nat, saved: bool)
      modifies this
      ensures Value() == if saved then PriceUpdated(old(Value()), price, quantity)
                         else AverageUpdated(old(Value()), price, quantity)
    {
      hide NewAverage, Moved, CountFor, Truncate;
      var oldLastTradePrice, oldPrice := lastTradePrice, currentPrice;
      var oldDayHigh, oldDayLow, oldHigh, oldLow, oldAllTimeHigh, oldAllTimeLow
        := dayHigh, dayLow, high, low, allTimeHigh, allTimeLow;
      lastTradePrice := price;
      AverageIgnoresLastTrade(old(Value()), price, price, quantity);
      avgLastPrice := Averaged(price, quantity);
      currentPrice := Truncate(avgLastPrice);
      TrackPrice();
      if !saved {
        lastTradePrice, currentPrice := oldLastTradePrice, oldPrice;
        dayHigh, dayLow, high, low, allTimeHigh, allTimeLow
          := oldDayHigh, oldDayLow, oldHigh, oldLow, oldAllTimeHigh, oldAllTimeLow;
      }
    }

    method UpdateStockVolume(traded: nat)
      modifies this`volume
      ensures Value() == VolumeUpdated(old(Value()), traded)
    {
      volume := volume + traded;
    }
  }

  // -------------------------------------------------------------------------
  // Recording
  // -------------------------------------------------------------------------

  datatype History = History(createdAt: int, bar: Bar)

  /** One bar for each stock, until a save fails: budget is how many succeed. The stock whose bar
      could not be saved has been restarted all the same. */
  method RecordOneMinuteOHLC(stocks: seq<StockRow>, now: int, budget: nat) returns (recorded: seq<History>, ok: bool)
    requires forall i, j :: 0 <= i < j < |stocks| ==> stocks[i] != stocks[j]
    modifies stocks
    ensures ok == (|recorded| == |stocks|) && |recorded| == Min(budget, |stocks|)
    ensures forall i :: 0 <= i < |recorded| ==> recorded[i] == History(now, BarOf(old(stocks[i].Value())))
    ensures forall i :: 0 <= i < |stocks| ==>
              stocks[i].Value() == if i <= |recorded| then Restarted(old(stocks[i].Value())) else old(stocks[i].Value())
  {
    recorded := [];
    for k := 0 to |stocks|
      invariant |recorded| == k <= budget
      invariant forall i :: 0 <= i < k ==> recorded[i] == History(now, BarOf(old(stocks[i].Value())))
      invariant forall i :: 0 <= i < k ==> stocks[i].Value() == Restarted(old(stocks[i].Value()))
      invariant forall i :: k <= i < |stocks| ==> stocks[i].Value() == old(stocks[i].Value())
    {
      var s := stocks[k];
      var current := Bar(s.open, s.high, s.low, s.currentPrice, s.volume);
      s.open := current.close;
      s.high := current.close;
      s.low := current.close;
      s.volume := 0;
      if k == budget {
        return recorded, false;
      }
      recorded := recorded + [History(now, current)];
    }
    ok := true;
  }

  /** The last index whose record is later than since, or the last one of all if there is none. */
  function WindowEnd(hs: seq<History>, since: int): (r: int)
    ensures hs != [] ==> 0 <= r < |hs|
  {
    WindowEndFrom(hs, since, |hs|)
  }

  function WindowEndFrom(hs: seq<History>, since: int, i: nat): (r: int)
    requires i <= |hs|
    ensures hs != [] ==> 0 <= r < |hs|
  {
    if i == 0 then |hs| - 1
    else if hs[i - 1].createdAt > since then i - 1
    else WindowEndFrom(hs, since, i - 1)
  }

  function Bars(hs: seq<History>): (r: seq<Bar>)
    ensures |r| == |hs| && forall i :: 0 <= i < |hs| ==> r[i] == hs[i].bar
  {
    seq(|hs|, i requires 0 <= i < |hs| => hs[i].bar)
  }

  function Window(hs: seq<History>, since: int): seq<Bar>
    requires hs != []
  {
    Bars(hs[..WindowEnd(hs, since) + 1])
  }

  /** The loop of recordNMinuteOHLC over its window: hs[..limitedRange + 1]. */
  method CombineBars(hs: seq<History>, limitedRange: nat) returns (combined: Bar)
    requires limitedRange < |hs|
    ensures combined == Combined(Bars(hs[..limitedRange + 1]))
  {
    var window := Bars(hs[..limitedRange + 1]);
    var open := hs[limitedRange].bar.open;
    var high: nat, low: nat, volume: nat := open, open, 0;
    for k := 0 to limitedRange + 1
      invariant Highest(high, Highs(window)[k..]) == Highest(open, Highs(window))
      invariant Lowest(low, Lows(window)[k..]) == Lowest(open, Lows(window))
      invariant volume + TotalVolume(window[k..]) == TotalVolume(window)
    {
      assert Highs(window)[k..][1..] == Highs(window)[k + 1..] && Lows(window)[k..][1..] == Lows(window)[k + 1..];
      assert window[k..][1..] == window[k + 1..];
      if high < hs[k].bar.high {
        high := hs[k].bar.high;
      }
      if low > hs[k].bar.low {
        low := hs[k].bar.low;
      }
      volume := volume + hs[k].bar.volume;
    }
    combined := Bar(open, high, low, hs[0].bar.close, volume);
  }

  /** retrievedHistories: one-minute records, the newest first. */
  method RecordNMinuteOHLC(retrievedHistories: seq<History>, n: nat, now: int) returns (recorded: Option<History>)
    ensures retrievedHistories == [] ==> recorded == None
    ensures retrievedHistories != []
            ==> recorded == Some(History(now, Combined(Window(retrievedHistories, now - n))))
  {
    var hs := retrievedHistories;
    if |hs| == 0 {
      return None;
    }
    var modifiedRange := now - n;
    var limitedRange := |hs| - 1;
    var i := |hs| - 1;
    while i >= 0
      invariant -1 <= i < |hs|
      invariant limitedRange == |hs| - 1
      invariant WindowEndFrom(hs, modifiedRange, i + 1) == WindowEnd(hs, modifiedRange)
    {
      if hs[i].createdAt > modifiedRange {
        limitedRange := i;
        break;
      }
      i := i - 1;
    }
    var combined := CombineBars(hs, limitedRange);
    recorded := Some(History(now, combined));
  }

  // -------------------------------------------------------------------------
  // The window
  // -------------------------------------------------------------------------

  ghost predicate NewestFirst(hs: seq<History>) {
    forall i, j :: 0 <= i < j < |hs| ==> hs[i].createdAt >= hs[j].createdAt
  }

  lemma {:induction false} WindowEndFacts(hs: seq<History>, since: int, i: nat)
    requires hs != [] && i <= |hs|
    requires forall j :: i <= j < |hs| ==> hs[j].createdAt <= since
    ensures var r := WindowEndFrom(hs, since, i);
            if exists j :: 0 <= j < |hs| && hs[j].createdAt > since
            then hs[r].createdAt > since && forall j :: r < j < |hs| ==> hs[j].createdAt <= since
            else r == |hs| - 1
  {
    if i > 0 && hs[i - 1].createdAt <= since {
      WindowEndFacts(hs, since, i - 1);
    }
  }

  /** The records combined are exactly those later than the start of the window, if and only if some
      record is, that is, the newest one; otherwise all of them are, however old. */
  lemma WindowExactIff(hs: seq<History>, since: int)
    requires hs != [] && NewestFirst(hs)
    ensures (forall i :: 0 <= i < |hs| ==> (i <= WindowEnd(hs, since) <==> hs[i].createdAt > since))
            <==> hs[0].createdAt > since
    ensures hs[0].createdAt <= since ==> WindowEnd(hs, since) == |hs| - 1
  {
    WindowEndFacts(hs, since, |hs|);
  }
}
