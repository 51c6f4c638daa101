/** Cost basis and tax on closing a position (models/User.go), over exact reals. */
module Taxes {
  import opened Wrappers
  import opened State

  /** Net worth up to the first component is taxed at the second, in percent. */
  const TAX_BRACKETS: seq<(int, nat)> := [(0, 0), (100000, 2), (500000, 5), (1000000, 9), (2000000, 15)]
  const MAX_TAX_PERCENT: nat := 25

  function PercentFrom(brackets: seq<(int, nat)>, netCash: int): nat
    decreases |brackets|
  {
    if brackets == [] then MAX_TAX_PERCENT
    else if netCash <= brackets[0].0 then brackets[0].1
    else PercentFrom(brackets[1..], netCash)
  }

  function TaxPercent(netCash: int): nat {
    PercentFrom(TAX_BRACKETS, netCash)
  }

  method GetTaxPercent(netCash: int) returns (percent: nat)
    ensures percent == TaxPercent(netCash)
  {
    for i := 0 to |TAX_BRACKETS|
      invariant PercentFrom(TAX_BRACKETS[i..], netCash) == TaxPercent(netCash)
    {
      assert TAX_BRACKETS[i..][0] == TAX_BRACKETS[i] && TAX_BRACKETS[i..][1..] == TAX_BRACKETS[i + 1..];
      if netCash <= TAX_BRACKETS[i].0 {
        return TAX_BRACKETS[i].1;
      }
    }
    assert TAX_BRACKETS[|TAX_BRACKETS|..] == [];
    return MAX_TAX_PERCENT;
  }

  /** Richer users never pay a lower rate, and no one pays more than a quarter. */
  lemma TaxPercentGrows(a: int, b: int)
    requires a <= b
    ensures TaxPercent(a) <= TaxPercent(b) <= MAX_TAX_PERCENT
  {
    Percent(a);
    Percent(b);
  }

  lemma Percent(a: int)
    ensures TaxPercent(a) == if a <= 0 then 0 else if a <= 100000 then 2 else if a <= 500000 then 5
                             else if a <= 1000000 then 9 else if a <= 2000000 then 15 else 25
  {
    assert TAX_BRACKETS[1..] == [(100000, 2), (500000, 5), (1000000, 9), (2000000, 15)];
    assert TAX_BRACKETS[1..][1..] == [(500000, 5), (1000000, 9), (2000000, 15)];
    assert TAX_BRACKETS[1..][1..][1..] == [(1000000, 9), (2000000, 15)];
    assert TAX_BRACKETS[1..][1..][1..][1..] == [(2000000, 15)];
    assert TAX_BRACKETS[1..][1..][1..][1..][1..] == [];
  }

  function MinReal(a: real, b: real): real {
    if a <= b then a else b
  }

  function Percentage(n: nat, percent: nat): nat {
    n * percent / 100
  }

  function TaxOn(profit: real, total: int): nat {
    if profit > 0.0 then Percentage(profit.Floor, TaxPercent(total)) else 0
  }

  /** The price of two holdings put together; a short holding counts negatively. */
  function Average(a: real, p: real, b: real, x: real): real
    requires a + b != 0.0
  {
    (a * p + b * x) / (a + b)
  }

  function SellProfit(s: Summary, quantity: nat, price: nat): real {
    MinReal(quantity as real, s.quantity as real) * (price as real - s.price)
  }

  function BuyProfit(s: Summary, quantity: nat, price: nat): real {
    MinReal(quantity as real, -(s.quantity as real)) * (s.price - price as real)
  }

  /** getTaxForAskingUser: selling out of a long position is taxed on its profit. */
  function SellTax(s: Option<Summary>, quantity: nat, price: nat, total: int): nat {
    if s.Some? && s.value.quantity > 0 then TaxOn(SellProfit(s.value, quantity, price), total) else 0
  }

  function Sold(s: Option<Summary>, quantity: nat, price: nat): Summary
    requires quantity > 0
  {
    if s.None? then Summary(0 - quantity, price as real)
    else
      var held := s.value.quantity as real;
      if s.value.quantity > 0 then
        Summary(s.value.quantity - quantity, if quantity >= s.value.quantity then price as real else s.value.price)
      else
        Summary(s.value.quantity - quantity, Average(held, s.value.price, -(quantity as real), price as real))
  }

  /** getTaxForBiddingUser: buying back a short position is taxed on its profit. */
  function BuyTax(s: Option<Summary>, quantity: nat, price: nat, total: int): nat {
    if s.Some? && s.value.quantity < 0 then TaxOn(BuyProfit(s.value, quantity, price), total) else 0
  }

  function Bought(s: Option<Summary>, quantity: nat, price: nat): Summary
    requires quantity > 0
  {
    if s.None? then Summary(quantity, price as real)
    else
      var held := s.value.quantity as real;
      if s.value.quantity < 0 then
        Summary(s.value.quantity + quantity, if quantity >= -s.value.quantity then price as real else s.value.price)
      else
        Summary(s.value.quantity + quantity, Average(held, s.value.price, quantity as real, price as real))
  }

  // -------------------------------------------------------------------------
  // Runs of deals in one stock
  // -------------------------------------------------------------------------

  datatype Deal = Deal(isBuy: bool, quantity: nat, price: nat)

  function After(s: Option<Summary>, d: Deal): Summary
    requires d.quantity > 0
  {
    if d.isBuy then Bought(s, d.quantity, d.price) else Sold(s, d.quantity, d.price)
  }

  ghost predicate Proper(ds: seq<Deal>) {
    forall d :: d in ds ==> d.quantity > 0
  }

  function AfterAll(s: Option<Summary>, ds: seq<Deal>): Option<Summary>
    requires Proper(ds)
    decreases |ds|
  {
    if ds == [] then s else AfterAll(Some(After(s, ds[0])), ds[1..])
  }

  function Signed(d: Deal): int {
    if d.isBuy then d.quantity as int else -(d.quantity as int)
  }

  function NetPosition(ds: seq<Deal>): int
    decreases |ds|
  {
    if ds == [] then 0 else Signed(ds[0]) + NetPosition(ds[1..])
  }

  ghost predicate Between(lo: real, x: real, hi: real) {
    lo <= x <= hi
  }

  lemma MulMono(a: real, x: real, y: real)
    requires a >= 0.0 && x <= y
    ensures a * x <= a * y
  {
  }

  lemma QuotientUnique(n: real, d: real, x: real)
    requires d != 0.0 && n == x * d
    ensures n / d == x
  {
  }

  lemma TimesBetween(a: real, p: real, lo: real, hi: real) returns (ap: real)
    requires a >= 0.0 && Between(lo, p, hi)
    ensures ap == a * p && lo * a <= ap <= hi * a
  {
    ap := a * p;
    MulMono(a, lo, p);
    MulMono(a, p, hi);
  }

  /** A weighted average lies between the values averaged... */
  lemma AverageBetween(a: real, p: real, b: real, x: real, lo: real, hi: real)
    requires a >= 0.0 && b > 0.0 && Between(lo, p, hi) && Between(lo, x, hi)
    ensures Between(lo, Average(a, p, b, x), hi)
  {
    var ap := TimesBetween(a, p, lo, hi);
    var bx := TimesBetween(b, x, lo, hi);
    CombineBetween(lo, hi, a, b, ap, bx);
    QuotientBetween(ap + bx, a + b, lo, hi);
  }

  lemma CombineBetween(lo: real, hi: real, a: real, b: real, ap: real, bx: real)
    requires lo * a <= ap <= hi * a && lo * b <= bx <= hi * b
    ensures lo * (a + b) <= ap + bx <= hi * (a + b)
  {
    Distribute(lo, a, b);
    Distribute(hi, a, b);
  }

  lemma QuotientBetween(n: real, d: real, lo: real, hi: real)
    requires d > 0.0 && lo * d <= n <= hi * d
    ensures lo <= n / d <= hi
  {
    var r := n / d;
    QuotientTimes(n, d);
    CancelFactor(lo, r, d);
    CancelFactor(r, hi, d);
  }

  lemma Distribute(x: real, a: real, b: real)
    ensures x * (a + b) == x * a + x * b
  {
  }

  lemma CancelFactor(x: real, y: real, d: real)
    requires d > 0.0 && x * d <= y * d
    ensures x <= y
  {
    if x > y {
      PositiveProduct(x - y, d);
    }
  }

  lemma PositiveProduct(u: real, d: real)
    requires u > 0.0 && d > 0.0
    ensures u * d > 0.0
  {
  }

  /** ...and for two short holdings it is the average of the long ones. */
  lemma AverageOfShorts(a: real, p: real, b: real, x: real)
    requires a + b != 0.0
    ensures Average(-a, p, -b, x) == Average(a, p, b, x)
  {
    var r := Average(a, p, b, x);
    QuotientTimes(a * p + b * x, a + b);
    assert -a * p + -b * x == r * (-a + -b);
    QuotientUnique(-a * p + -b * x, -a + -b, r);
  }

  lemma QuotientTimes(n: real, d: real)
    requires d != 0.0
    ensures (n / d) * d == n
  {
  }

  lemma AfterInRange(s: Option<Summary>, d: Deal, lo: real, hi: real)
    requires d.quantity > 0 && Between(lo, d.price as real, hi)
    requires s.Some? ==> Between(lo, s.value.price, hi)
    ensures Between(lo, After(s, d).price, hi)
    ensures After(s, d).quantity == (if s.Some? then s.value.quantity else 0) + Signed(d)
  {
    hide Average;
    if s.Some? {
      var held, q, x := s.value.quantity as real, d.quantity as real, d.price as real;
      if d.isBuy && s.value.quantity >= 0 {
        AverageBetween(held, s.value.price, q, x, lo, hi);
      } else if !d.isBuy && s.value.quantity <= 0 {
        AverageBetween(-held, s.value.price, q, x, lo, hi);
        AverageOfShorts(-held, s.value.price, q, x);
      }
    }
  }

  /** Across any sequence of buys and sells, long, short or through zero, the summary's quantity is
      the net position and its price stays within the range of the prices dealt at. */
  lemma {:induction false} CostBasisInRange(s: Option<Summary>, ds: seq<Deal>, lo: real, hi: real)
    requires Proper(ds) && forall d :: d in ds ==> Between(lo, d.price as real, hi)
    requires s.Some? ==> Between(lo, s.value.price, hi)
    ensures var r := AfterAll(s, ds);
            && (ds != [] ==> r.Some?)
            && (r.Some? ==> && Between(lo, r.value.price, hi)
                            && r.value.quantity == (if s.Some? then s.value.quantity else 0) + NetPosition(ds))
    decreases |ds|
  {
    if ds != [] {
      AfterInRange(s, ds[0], lo, hi);
      CostBasisInRange(Some(After(s, ds[0])), ds[1..], lo, hi);
    }
  }

  function Cost(ds: seq<Deal>): int
    decreases |ds|
  {
    if ds == [] then 0 else ds[0].quantity * ds[0].price + Cost(ds[1..])
  }

  /** While only buying, the summary's price is exactly the average cost per stock. */
  lemma {:induction false} AverageCost(s: Option<Summary>, ds: seq<Deal>)
    requires Proper(ds) && forall d :: d in ds ==> d.isBuy
    requires s.Some? ==> s.value.quantity >= 0
    ensures Worth(AfterAll(s, ds)) == Worth(s) + Cost(ds) as real
    decreases |ds|
  {
    if ds != [] {
      BuyAddsCost(s, ds[0]);
      AverageCost(Some(After(s, ds[0])), ds[1..]);
    }
  }

  function Worth(s: Option<Summary>): real {
    if s.Some? then s.value.quantity as real * s.value.price else 0.0
  }

  lemma BuyAddsCost(s: Option<Summary>, d: Deal)
    requires d.quantity > 0 && d.isBuy && (s.Some? ==> s.value.quantity >= 0)
    ensures Worth(Some(After(s, d))) == Worth(s) + (d.quantity * d.price) as real
  {
    var q, x := d.quantity as real, d.price as real;
    assert (d.quantity * d.price) as real == q * x;
    if s.Some? {
      var held := s.value.quantity as real;
      QuotientTimes(held * s.value.price + q * x, held + q);
      assert After(s, d).quantity as real == held + q;
    }
  }

  // -------------------------------------------------------------------------
  // How much tax there can be
  // -------------------------------------------------------------------------

  lemma PercentageAtMostQuarter(n: nat, percent: nat)
    requires percent <= MAX_TAX_PERCENT
    ensures 4 * Percentage(n, percent) <= n
  {
    assert n * percent <= n * 25;
  }

  lemma TaxAtMostQuarter(profit: real, total: int, bound: nat)
    requires profit <= bound as real
    ensures 4 * TaxOn(profit, total) <= bound
  {
    TaxPercentGrows(total, total);
    if profit > 0.0 {
      PercentageAtMostQuarter(profit.Floor, TaxPercent(total));
    }
  }

  lemma ProductBound(m: real, quantity: nat, x: real, price: nat)
    requires 0.0 <= m <= quantity as real && x <= price as real
    ensures m * x <= (quantity * price) as real
  {
    var q, p := quantity as real, price as real;
    assert (quantity * price) as real == q * p;
    MulMono(m, x, p);
    MulMono(p, m, q);
  }

  /** The seller's tax is at most a quarter of the proceeds, so subtracting it after adding the
      proceeds cannot underflow. */
  lemma SellTaxAtMostQuarter(s: Option<Summary>, quantity: nat, price: nat, total: int)
    requires s.Some? ==> s.value.price >= 0.0
    ensures 4 * SellTax(s, quantity, price, total) <= quantity * price
  {
    if s.Some? && s.value.quantity > 0 {
      var m := MinReal(quantity as real, s.value.quantity as real);
      ProductBound(m, quantity, price as real - s.value.price, price);
      hide TaxOn, MinReal;
      TaxAtMostQuarter(SellProfit(s.value, quantity, price), total, quantity * price);
    }
  }

  // -------------------------------------------------------------------------
  // Exactly how much it is
  // -------------------------------------------------------------------------

  /** The rate at a net worth, bracket by bracket. */
  ghost predicate RateAt(total: int, rate: nat) {
    && (total <= 0 ==> rate == 0) && (0 < total <= 100000 ==> rate == 2) && (100000 < total <= 500000 ==> rate == 5)
    && (500000 < total <= 1000000 ==> rate == 9) && (1000000 < total <= 2000000 ==> rate == 15)
    && (2000000 < total ==> rate == 25)
  }

  /** tax is that rate of the profit, both rounded down. */
  ghost predicate TaxedAt(profit: real, total: int, tax: nat) {
    exists whole: nat, rate: nat :: TaxOf(profit, total, tax, whole, rate)
  }

  ghost predicate TaxOf(profit: real, total: int, tax: nat, whole: nat, rate: nat) {
    whole as real <= profit < whole as real + 1.0 && RateAt(total, rate) && 100 * tax <= whole * rate < 100 * (tax + 1)
  }

  lemma TaxOnIs(profit: real, total: int)
    requires profit > 0.0
    ensures TaxedAt(profit, total, TaxOn(profit, total))
  {
    Percent(total);
    var whole, rate := profit.Floor, TaxPercent(total);
    assert TaxOf(profit, total, TaxOn(profit, total), whole, rate);
  }

  /** What n stocks gain when each gains gap. */
  function Gain(n: nat, gap: real): real {
    n as real * gap
  }

  /** Selling is taxed on what the stocks sold out of a long position bring beyond their cost, if that is
      positive, and on nothing else. */
  lemma SellTaxIs(s: Option<Summary>, quantity: nat, price: nat, total: int)
    ensures var tax := SellTax(s, quantity, price, total);
            if s.Some? && s.value.quantity > 0 && quantity > 0 && price as real > s.value.price then
              var sold := if quantity <= s.value.quantity then quantity else s.value.quantity;
              TaxedAt(Gain(sold, price as real - s.value.price), total, tax)
            else tax == 0
  {
    hide TaxOn, TaxedAt, MinReal, Gain;
    if s.Some? && s.value.quantity > 0 {
      var sold := if quantity <= s.value.quantity then quantity else s.value.quantity;
      SellGain(s.value, quantity, price);
      GainTaxed(sold, price as real - s.value.price, total);
    }
  }

  lemma SellGain(s: Summary, quantity: nat, price: nat)
    requires s.quantity > 0
    ensures SellProfit(s, quantity, price) == Gain(if quantity <= s.quantity then quantity else s.quantity, price as real - s.price)
  {
    SmallerOf(quantity, s.quantity);
  }

  lemma SmallerOf(a: nat, b: nat)
    ensures MinReal(a as real, b as real) == (if a <= b then a else b) as real
  {
  }

  lemma GainTaxed(n: nat, gap: real, total: int)
    ensures var tax := TaxOn(Gain(n, gap), total);
            if n > 0 && gap > 0.0 then TaxedAt(Gain(n, gap), total, tax) else tax == 0
  {
    var profit := Gain(n, gap);
    SignOf(n as real, gap);
    hide TaxOn, TaxedAt;
    if n > 0 && gap > 0.0 {
      TaxOnIs(profit, total);
    } else {
      NoTax(profit, total);
    }
  }

  lemma SignOf(n: real, gap: real)
    requires n >= 0.0
    ensures n > 0.0 && gap > 0.0 ==> n * gap > 0.0
    ensures n == 0.0 || gap <= 0.0 ==> n * gap <= 0.0
  {
    if n > 0.0 && gap > 0.0 {
      PositiveProduct(n, gap);
    } else if gap <= 0.0 {
      MulMono(n, gap, 0.0);
    }
  }

  lemma NoTax(profit: real, total: int)
    requires profit <= 0.0
    ensures TaxOn(profit, total) == 0
  {
  }

  /** Buying is taxed on what the stocks bought back into a short position cost less than they had brought, if
      that is positive, and on nothing else. */
  lemma BuyTaxIs(s: Option<Summary>, quantity: nat, price: nat, total: int)
    ensures var tax := BuyTax(s, quantity, price, total);
            if s.Some? && s.value.quantity < 0 && quantity > 0 && price as real < s.value.price then
              var back := if quantity <= 0 - s.value.quantity then quantity else 0 - s.value.quantity;
              TaxedAt(Gain(back, s.value.price - price as real), total, tax)
            else tax == 0
  {
    hide TaxOn, TaxedAt, MinReal, Gain;
    if s.Some? && s.value.quantity < 0 {
      var back := if quantity <= 0 - s.value.quantity then quantity else 0 - s.value.quantity;
      BuyGain(s.value, quantity, price);
      GainTaxed(back, s.value.price - price as real, total);
    }
  }

  lemma BuyGain(s: Summary, quantity: nat, price: nat)
    requires s.quantity < 0
    ensures BuyProfit(s, quantity, price)
            == Gain(if quantity <= 0 - s.quantity then quantity else 0 - s.quantity, s.price - price as real)
  {
    SmallerOf(quantity, 0 - s.quantity);
    assert -(s.quantity as real) == (0 - s.quantity) as real;
  }

  /** Buying adds its cost to a long position; it leaves the price of a short one that stays short; and what
      it buys beyond that is held at the price paid. */
  lemma PositionAfterBuying(s: Option<Summary>, quantity: nat, price: nat)
    requires quantity > 0
    ensures var r := Bought(s, quantity, price);
            && r.quantity == (if s.Some? then s.value.quantity else 0) + quantity
            && (s.None? || 0 - quantity <= s.value.quantity < 0 ==> r.price == price as real)
            && (s.Some? && s.value.quantity < 0 - quantity ==> r.price == s.value.price)
            && (s.Some? && s.value.quantity >= 0
                ==> r.quantity as real * r.price == s.value.quantity as real * s.value.price + quantity as real * price as real)
  {
    if s.Some? && s.value.quantity >= 0 {
      var held := s.value.quantity as real;
      QuotientTimes(held * s.value.price + quantity as real * price as real, held + quantity as real);
      assert Bought(s, quantity, price).quantity as real == held + quantity as real;
    }
  }

  /** Selling, the other way round: a short position grows at the average of what its stocks brought. */
  lemma PositionAfterSelling(s: Option<Summary>, quantity: nat, price: nat)
    requires quantity > 0
    ensures var r := Sold(s, quantity, price);
            && r.quantity == (if s.Some? then s.value.quantity else 0) - quantity
            && (s.None? || 0 < s.value.quantity <= quantity ==> r.price == price as real)
            && (s.Some? && quantity < s.value.quantity ==> r.price == s.value.price)
            && (s.Some? && s.value.quantity <= 0
                ==> r.quantity as real * r.price == s.value.quantity as real * s.value.price - quantity as real * price as real)
  {
    if s.Some? && s.value.quantity <= 0 {
      var held, q := s.value.quantity as real, quantity as real;
      assert held + -q != 0.0;
      QuotientTimes(held * s.value.price + -q * price as real, held + -q);
      assert Sold(s, quantity, price).quantity as real == held + -q;
    }
  }

  // -------------------------------------------------------------------------
  // Step by step
  // -------------------------------------------------------------------------

  method MinOf(a: real, b: real) returns (r: real)
    ensures r == MinReal(a, b)
  {
    r := if a <= b then a else b;
  }

  method TaxOnProfit(profit: real, netCash: int) returns (tax: nat)
    ensures tax == TaxOn(profit, netCash)
  {
    tax := 0;
    if profit > 0.0 {
      var percent := GetTaxPercent(netCash);
      tax := profit.Floor * percent / 100;
    }
  }

  method BuyMore(held: real, price: real, q: real, x: real) returns (r: real)
    requires held + q != 0.0
    ensures r == Average(held, price, q, x)
  {
    r := (held * price + q * x) / (held + q);
  }

  method SellMore(held: real, price: real, q: real, x: real) returns (r: real)
    requires held - q != 0.0
    ensures r == Average(held, price, -q, x)
  {
    assert held * price + -q * x == held * price - q * x;
    assert held + -q == held - q;
    r := (held * price - q * x) / (held - q);
  }

  /** A row of the TransactionSummary table, found or about to be inserted. */
  class SummaryRow {
    var found: bool
    var quantity: int
    var price: real

    function Value(): Option<Summary>
      reads this
    {
      if found then Some(Summary(quantity, price)) else None
    }

    constructor (s: Option<Summary>)
      ensures Value() == s
    {
      found := s.Some?;
      quantity := if s.Some? then s.value.quantity else 0;
      price := if s.Some? then s.value.price else 0.0;
    }

    method GetTaxForBiddingUser(stockQuantity: nat, stockPrice: nat, netCash: int) returns (tax: nat)
      requires stockQuantity > 0
      modifies this
      ensures tax == BuyTax(old(Value()), stockQuantity, stockPrice, netCash)
      ensures Value() == Some(Bought(old(Value()), stockQuantity, stockPrice))
    {
      hide TaxOn, Average;
      tax := 0;
      if !found {
        found, quantity, price := true, stockQuantity, stockPrice as real;
        return;
      }
      var currentStocksHeld := quantity as real;
      if quantity < 0 {
        var taxableStockQty := MinOf(stockQuantity as real, -currentStocksHeld);
        var profit := taxableStockQty * (price - stockPrice as real);
        assert profit == BuyProfit(old(Value()).value, stockQuantity, stockPrice);
        tax := TaxOnProfit(profit, netCash);
        quantity := quantity + stockQuantity;
        if taxableStockQty == -currentStocksHeld {
          price := stockPrice as real;
        }
      } else {
        var q, x := stockQuantity as real, stockPrice as real;
        price := BuyMore(currentStocksHeld, price, q, x);
        quantity := quantity + stockQuantity;
      }
    }

    method GetTaxForAskingUser(stockQuantity: nat, stockPrice: nat, netCash: int) returns (tax: nat)
      requires stockQuantity > 0
      modifies this
      ensures tax == SellTax(old(Value()), stockQuantity, stockPrice, netCash)
      ensures Value() == Some(Sold(old(Value()), stockQuantity, stockPrice))
    {
      hide TaxOn, Average;
      tax := 0;
      if !found {
        found, quantity, price := true, 0 - stockQuantity, stockPrice as real;
        return;
      }
      var currentStocksHeld := quantity as real;
      if quantity > 0 {
        var taxableStockQty := MinOf(stockQuantity as real, currentStocksHeld);
        var profit := taxableStockQty * (stockPrice as real - price);
        assert profit == SellProfit(old(Value()).value, stockQuantity, stockPrice);
        tax := TaxOnProfit(profit, netCash);
        quantity := quantity - stockQuantity;
        if taxableStockQty == currentStocksHeld {
          price := stockPrice as real;
        }
      } else {
        assert currentStocksHeld - stockQuantity as real != 0.0;
        var q, x := stockQuantity as real, stockPrice as real;
        price := SellMore(currentStocksHeld, price, q, x);
        quantity := quantity - stockQuantity;
      }
    }
  }
}
