/** A stock's price, its running average and its price bars (models/Stock.go,
    models/StockHistory.go). */
module Stocks {
  import opened Words

  const STOCK_AVERAGE_PERCENT: nat := 1
  const MAX_AVERAGE_STOCK_COUNT: nat := 3

  datatype Stock = Stock(currentPrice: nat, avgLastPrice: real, lastTradePrice: nat,
                         stocksInExchange: nat, stocksInMarket: nat,
                         dayHigh: nat, dayLow: nat, allTimeHigh: nat, allTimeLow: nat,
                         open: nat, high: nat, low: nat, volume: nat)

  /** How many of the last trades the price averages over: 1% of all stocks, between 1 and 3. */
  function CountFor(stocks: nat): (n: nat)
    ensures 1 <= n <= MAX_AVERAGE_STOCK_COUNT
  {
    Min(Max(STOCK_AVERAGE_PERCENT * stocks / 100, 1), MAX_AVERAGE_STOCK_COUNT)
  }

  function AverageStockCount(s: Stock): (n: nat)
    ensures 1 <= n <= MAX_AVERAGE_STOCK_COUNT
  {
    CountFor(s.stocksInExchange + s.stocksInMarket)
  }

  /** The average moves toward the price by quantity parts in n. */
  function Moved(avg: real, n: nat, price: nat, quantity: nat): real
    requires n > 0
  {
    avg + (Min(quantity, n) as real) * (price as real - avg) / (n as real)
  }

  function NewAverage(s: Stock, price: nat, quantity: nat): real {
    Moved(s.avgLastPrice, AverageStockCount(s), price, quantity)
  }

  /** uint64 conversion of a non-negative float. */
  function Truncate(x: real): nat {
    if x < 0.0 then 0 else x.Floor
  }

  function PriceUpdated(s: Stock, price: nat, quantity: nat): Stock {
    var avg := NewAverage(s, price, quantity);
    var p := Truncate(avg);
    s.(currentPrice := p, avgLastPrice := avg, lastTradePrice := price,
       dayHigh := Max(s.dayHigh, p), dayLow := if p > s.dayHigh then s.dayLow else Min(s.dayLow, p),
       high := Max(s.high, p), low := if p > s.high then s.low else Min(s.low, p),
       allTimeHigh := Max(s.allTimeHigh, p),
       allTimeLow := if p > s.allTimeHigh then s.allTimeLow else Min(s.allTimeLow, p))
  }

  /** When the stock cannot be saved it is put back, except for the average, which is kept elsewhere. */
  function AverageUpdated(s: Stock, price: nat, quantity: nat): Stock {
    s.(avgLastPrice := NewAverage(s, price, quantity))
  }

  function VolumeUpdated(s: Stock, volume: nat): Stock {
    s.(volume := s.volume + volume)
  }

}
