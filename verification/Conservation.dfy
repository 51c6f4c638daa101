/** Stocks are neither made nor lost: what users hold, what the lending bank holds and what is
    mortgaged always add up to what the exchange has put in the market. */
module Conservation {
  import opened Words
  import opened Orders
  import opened State
  import opened Accounts
  import opened Sums
  import opened Reservations
  import DoubleEntry
  import Taxes

  /** Stocks that rows give to users, reserved ones included. */
  function Moves(s: nat): Transaction -> int {
    (t: Transaction) => if t.stockId == s then t.stockQuantity + t.reservedStockQuantity else 0
  }

  function Lent(s: nat): Lend -> int {
    (l: Lend) => if !l.isSquaredOff && l.stockId == s then l.stockQuantity else 0
  }

  ghost function Mortgaged(m: Models, s: nat): int {
    MapSum(m.mortgages, (k: MortgageKey) => k.stockId == s)
  }

  function InMarket(m: Models, s: nat): int {
    if s in m.stocks then m.stocks[s].stocksInMarket else 0
  }

  /** Stocks held, lent and mortgaged beyond what was sold into the market. */
  ghost function Surplus(m: Models, s: nat): int {
    Sum(m.rows, Moves(s)) + Available(m, s) + Mortgaged(m, s) - InMarket(m, s)
  }

  /** What the lending bank has or is owed. */
  function BankAssets(m: Models, s: nat): int {
    Available(m, s) + Sum(m.lends, Lent(s))
  }

  /** The bank's assets fit its 32-bit counter. */
  ghost predicate BankFits(m: Models) {
    forall s: nat :: 0 <= Available(m, s) && BankAssets(m, s) < TWO_32
  }

  /** Totals stay, the bank's counter stays a number of stocks, and lends stay within the limit. */
  ghost predicate ConservedFor(m: Models, m': Models, s: nat) {
    && Surplus(m', s) == Surplus(m, s) && BankAssets(m', s) == BankAssets(m, s)
    && (0 <= Available(m, s) ==> 0 <= Available(m', s))
    && forall u: nat :: ActiveLends(m', u, s) <= ActiveLends(m, u, s) || ActiveLends(m', u, s) <= SHORT_SELL_BORROW_LIMIT
  }

  ghost predicate Conserved(m: Models, m': Models) {
    forall s: nat :: ConservedFor(m, m', s)
  }

  // -------------------------------------------------------------------------
  // The bank's counter
  // -------------------------------------------------------------------------

  /** Adding a negated uint32 subtracts, if and only if the bank has that much. */
  lemma NegationSubtractsIff(available: nat, q: nat)
    requires available < TWO_32 && q < TWO_32
    ensures BankUpdated(available, Negate32(q)) == available - q <==> q <= available
  {
  }

  lemma AdditionExact(available: nat, q: nat)
    requires available + q < TWO_32
    ensures BankUpdated(available, q) == available + q
  {
  }

  lemma LentNonNegative(m: Models, s: nat)
    ensures Sum(m.lends, Lent(s)) >= 0
  {
    SumNonNegative(m.lends, Lent(s));
  }

  // -------------------------------------------------------------------------
  // One step
  // -------------------------------------------------------------------------

  lemma RowsMove(m: Models, m': Models, rows: seq<Transaction>, s: nat)
    requires m'.rows == m.rows + rows
    ensures Sum(m'.rows, Moves(s)) == Sum(m.rows, Moves(s)) + Sum(rows, Moves(s))
  {
    SumConcat(m.rows, rows, Moves(s));
  }

  /** Rows that move nothing on balance, beside untouched banks and markets. */
  lemma BalancedRows(m: Models, m': Models, rows: seq<Transaction>)
    requires m'.rows == m.rows + rows && forall s: nat :: Sum(rows, Moves(s)) == 0
    requires m'.lendBank == m.lendBank && m'.lends == m.lends && m'.mortgages == m.mortgages
    requires forall s: nat :: InMarket(m', s) == InMarket(m, s)
    ensures Conserved(m, m')
  {
    forall s: nat ensures ConservedFor(m, m', s) {
      RowsMove(m, m', rows, s);
    }
  }

  lemma BidConserved(m: Models, o: Order, fee: nat, budget: nat)
    ensures Conserved(m, PlaceBid(m, o, fee, budget).m)
  {
    var r := PlaceBid(m, o, fee, budget);
    if r.recorded {
      var reserve := o.quantity * OrderPrice(m, o);
      var r0 := Row(o.userId, o.stockId, OrderFee, 0, 0, 0, 0, 0 - fee);
      var r1 := Row(o.userId, o.stockId, PlaceOrder, 0, 0, 0, reserve, 0 - reserve);
      hide BidError, OrderPrice, Wrap64, Conserved;
      forall s: nat ensures Sum([r0, r1], Moves(s)) == 0 { DoubleEntry.TwoRows(r0, r1, Moves(s)); }
      BalancedRows(m, r.m, [r0, r1]);
    } else {
      hide BidError, Conserved;
      BalancedRows(m, r.m, []);
    }
  }

  /** Borrowing moves stocks from the bank to the user. */
  lemma LendConserved(m: Models, userId: nat, stockId: nat, q: nat)
    requires BankFits(m) && q <= Available(m, stockId)
    requires ActiveLends(m, userId, stockId) + q <= SHORT_SELL_BORROW_LIMIT
    ensures Conserved(m, LendStocks(m, userId, stockId, q))
  {
    var m' := LendStocks(m, userId, stockId, q);
    LentNonNegative(m, stockId);
    NegationSubtractsIff(Available(m, stockId), q);
    hide BankUpdated, Negate32;
    forall s: nat ensures ConservedFor(m, m', s) {
      var t := Row(userId, stockId, ShortSell, 0, q, CurrentPrice(m, stockId), 0, 0);
      RowsMove(m, m', [t], s);
      SumAppend(m.lends, Lend(stockId, userId, q, false), Lent(s));
      forall u: nat { SumAppend(m.lends, Lend(stockId, userId, q, false), LentTo(u, s)); }
    }
  }

  lemma ConservedTwice(m: Models, m1: Models, m2: Models)
    requires Conserved(m, m1) && Conserved(m1, m2)
    ensures Conserved(m, m2)
  {
    forall s: nat ensures ConservedFor(m, m2, s) {
      assert ConservedFor(m, m1, s) && ConservedFor(m1, m2, s);
    }
  }

  lemma AskConserved(m: Models, o: Order, fee: nat, budget: nat)
    requires BankFits(m)
    ensures Conserved(m, PlaceAsk(m, o, fee, budget).m)
  {
    var r := PlaceAsk(m, o, fee, budget);
    hide PriceError, ShortSellQty, AskPlaced, Conserved;
    if r.recorded {
      AskPlacedConserved(m, o, fee, ShortSellQty(m, o));
    } else {
      BalancedRows(m, r.m, []);
    }
  }

  lemma AskPlacedConserved(m: Models, o: Order, fee: nat, short: int)
    requires BankFits(m) && o.userId in m.users && short <= Available(m, o.stockId)
    requires short > 0 ==> ActiveLends(m, o.userId, o.stockId) + short <= SHORT_SELL_BORROW_LIMIT
    ensures Conserved(m, AskPlaced(m, o, fee, short))
  {
    var r0 := Row(o.userId, o.stockId, OrderFee, 0, 0, 0, 0, 0 - fee);
    var r1 := Row(o.userId, o.stockId, PlaceOrder, o.quantity, 0 - o.quantity, 0, 0, 0);
    var m1 := AskNoted(m, o, fee);
    var m2 := if short > 0 then LendStocks(m1, o.userId, o.stockId, short) else m1;
    hide Conserved, Wrap64;
    BalancedRows(m, m1, [r0]);
    SameBankFits(m, m1);
    assert Available(m1, o.stockId) == Available(m, o.stockId)
           && ActiveLends(m1, o.userId, o.stockId) == ActiveLends(m, o.userId, o.stockId);
    hide LendStocks, AskNoted, BankFits;
    if short > 0 {
      LendConserved(m1, o.userId, o.stockId, short);
      ConservedTwice(m, m1, m2);
    }
    BalancedRows(m2, AskPlaced(m, o, fee, short), [r1]);
    ConservedTwice(m, m2, AskPlaced(m, o, fee, short));
  }

  lemma SameBankFits(m: Models, m1: Models)
    requires BankFits(m) && m1.lendBank == m.lendBank && m1.lends == m.lends
    ensures BankFits(m1)
  {
    forall s: nat ensures Available(m1, s) == Available(m, s) && BankAssets(m1, s) == BankAssets(m, s) {}
  }

  lemma SquareOffConserved(m: Models, i: nat)
    requires BankFits(m) && i < |m.lends|
    ensures Conserved(m, SquareOff(m, i))
  {
    var l := m.lends[i];
    if !l.isSquaredOff {
      var m' := SquareOff(m, i);
      SumAtLeast(m.lends, l, Lent(l.stockId));
      assert BankAssets(m, l.stockId) < TWO_32;
      AdditionExact(Available(m, l.stockId), l.stockQuantity);
      hide BankUpdated;
      forall s: nat ensures ConservedFor(m, m', s) {
        var t := Row(l.userId, l.stockId, ShortSell, 0, 0 - l.stockQuantity, CurrentPrice(m, l.stockId), 0, 0);
        RowsMove(m, m', [t], s);
        SumUpdate(m.lends, i, l.(isSquaredOff := true), Lent(s));
        forall u: nat { SumUpdate(m.lends, i, l.(isSquaredOff := true), LentTo(u, s)); }
      }
    }
  }

  lemma CancelConserved(m: Models, u: nat, o: Order, budget: nat)
    ensures Conserved(m, Accounts.Cancel(m, u, o, budget).m)
  {
    var r := Accounts.Cancel(m, u, o, budget);
    hide Conserved, Refund, Seen, Unfulfilled;
    DoubleEntry.CancelElsewhere(m, u, o, budget);
    if r.error.None? {
      DoubleEntry.CancelRows(m, u, o, budget);
      hide Accounts.Cancel;
      if o.id.side == AskSide {
        var q: int := Unfulfilled(o, Seen(m, o));
        BalancedRows(m, r.m, [Row(o.userId, o.stockId, CancelOrder, 0 - q, q, 0, 0, 0)]);
      } else {
        BalancedRows(m, r.m, [RefundRow(o, Refund(o, Seen(m, o), m.deposits[o.id]))]);
      }
    } else {
      DoubleEntry.FailedCancelKeeps(m, u, o, budget);
      hide Accounts.Cancel;
      BalancedRows(m, r.m, []);
    }
  }

  lemma TaxMovesNothing(u: nat, stockId: nat, tax: nat, s: nat)
    ensures Sum(TaxRows(u, stockId, tax), Moves(s)) == 0
  {
  }

  lemma TradeMovesNothing(a: Order, b: Order, x: Parties, reserved: int, price: nat, qty: nat, s: nat)
    requires a.stockId == b.stockId
    ensures Sum(TradeRows(a, b, x, reserved, price, qty), Moves(s)) == 0
  {
    DoubleEntry.TradeRowsSum(a, b, x, reserved, price, qty, Moves(s));
    TaxMovesNothing(a.userId, a.stockId, AskTax(x, price, qty), s);
    TaxMovesNothing(b.userId, b.stockId, BidTax(x, price, qty), s);
    hide TradeRows, TaxRows, AskTax, BidTax, Portion, Sum;
  }

  lemma MarketAfterTrade(m: Models, stockId: nat, price: nat, qty: nat, saved: bool, s: nat)
    ensures InMarket(m.(stocks := StockAfterTrade(m, stockId, price, qty, saved)), s) == InMarket(m, s)
  {
  }

  lemma TradeConserved(m: Models, a: Order, b: Order, price: nat, qty: nat, budget: nat)
    requires a.stockId == b.stockId && Fill(m, a, b, price, qty, budget).traded
    ensures Conserved(m, Fill(m, a, b, price, qty, budget).m)
  {
    TradeShape(m, a, b, price, qty, budget);
    TradeBanks(m, a, b, price, qty, budget);
    var r := Fill(m, a, b, price, qty, budget);
    var rows := TradeRows(a, b, PartiesOf(m, a, b), m.deposits[b.id], price, qty);
    forall s: nat ensures Sum(rows, Moves(s)) == 0 {
      TradeMovesNothing(a, b, PartiesOf(m, a, b), m.deposits[b.id], price, qty, s);
    }
    hide Fill, TradeRows, CashLeft, Conserved;
    BalancedRows(m, r.m, rows);
  }

  lemma TradeBanks(m: Models, a: Order, b: Order, price: nat, qty: nat, budget: nat)
    requires Fill(m, a, b, price, qty, budget).traded
    ensures var m' := Fill(m, a, b, price, qty, budget).m;
            && m'.lendBank == m.lendBank && m'.lends == m.lends && m'.mortgages == m.mortgages
            && forall s: nat :: InMarket(m', s) == InMarket(m, s)
  {
    var m', x := Fill(m, a, b, price, qty, budget).m, PartiesOf(m, a, b);
    var saved := budget > FillWrites(AskTax(x, price, qty), BidTax(x, price, qty));
    hide AskTax, BidTax, TradeRows, PutSummary, CashLeft, FillWrites, Traded, StockAfterTrade, Refund;
    assert m'.stocks == StockAfterTrade(m, a.stockId, price, qty, saved);
    forall s: nat ensures InMarket(m', s) == InMarket(m, s) {
      MarketAfterTrade(m, a.stockId, price, qty, saved, s);
    }
  }

  lemma NoTradeConserved(m: Models, a: Order, b: Order, price: nat, qty: nat, budget: nat)
    requires a.id != b.id && !Fill(m, a, b, price, qty, budget).traded
    ensures Conserved(m, Fill(m, a, b, price, qty, budget).m)
  {
    var r := Fill(m, a, b, price, qty, budget);
    if r.bid == Done {
      ClosedShape(m, a, b, price, qty, budget);
      hide Fill, CashLeft, Refund, Conserved;
      BalancedRows(m, r.m, [RefundRow(b, Refund(b, Look(m.progress, b), m.deposits[b.id]))]);
    } else {
      NoFill(m, a, b, price, qty, budget);
      hide Fill, HalfCloses, Conserved;
      BalancedRows(m, r.m, []);
    }
  }

  lemma FillConserved(m: Models, a: Order, b: Order, price: nat, qty: nat, budget: nat)
    requires a.id != b.id && a.stockId == b.stockId
    ensures Conserved(m, Fill(m, a, b, price, qty, budget).m)
  {
    hide Fill, Conserved;
    if Fill(m, a, b, price, qty, budget).traded {
      TradeConserved(m, a, b, price, qty, budget);
    } else {
      NoTradeConserved(m, a, b, price, qty, budget);
    }
  }

  lemma BuyConserved(m: Models, u: nat, stockId: nat, qty: nat, budget: nat)
    ensures Conserved(m, BuyFromExchange(m, u, stockId, qty, budget).m)
  {
    var r := BuyFromExchange(m, u, stockId, qty, budget);
    if r.error.None? {
      DoubleEntry.BuyWrote(m, u, stockId, qty, budget);
      BuyMoves(m, u, stockId, qty, budget);
      hide BuyFromExchange, BoughtQty, Taxes.BuyTax, Taxes.Bought, TaxRows;
      var q, price := BoughtQty(m, stockId, qty), m.stocks[stockId].currentPrice;
      var cost: int := price * q;
      PurchaseConserved(m, r.m, u, stockId, q, price, cost, Taxes.BuyTax(SummaryOf(m, u, stockId), q, price, m.users[u].total));
    } else {
      NothingMoves(m);
    }
  }

  lemma BuyMoves(m: Models, u: nat, stockId: nat, qty: nat, budget: nat)
    requires BuyFromExchange(m, u, stockId, qty, budget).error.None?
    ensures var m', q := BuyFromExchange(m, u, stockId, qty, budget).m, BoughtQty(m, stockId, qty);
            && m'.lendBank == m.lendBank && m'.lends == m.lends && m'.mortgages == m.mortgages
            && forall s: nat :: InMarket(m', s) == InMarket(m, s) + if s == stockId then q else 0
  {
    hide Taxes.BuyTax, Taxes.Bought, TaxRows, Wrap64;
  }

  lemma PurchaseConserved(m: Models, m': Models, u: nat, stockId: nat, q: nat, price: nat, cost: int, tax: nat)
    requires m'.rows == m.rows + ([Row(u, stockId, FromExchange, 0, q, price, 0, 0 - cost)] + TaxRows(u, stockId, tax))
    requires m'.lendBank == m.lendBank && m'.lends == m.lends && m'.mortgages == m.mortgages
    requires forall s: nat :: InMarket(m', s) == InMarket(m, s) + if s == stockId then q else 0
    ensures Conserved(m, m')
  {
    var t := Row(u, stockId, FromExchange, 0, q, price, 0, 0 - cost);
    hide TaxRows, Sum, MapSum, InMarket;
    forall s: nat ensures ConservedFor(m, m', s) {
      RowsMove(m, m', [t] + TaxRows(u, stockId, tax), s);
      SumConcat([t], TaxRows(u, stockId, tax), Moves(s));
      TaxMovesNothing(u, stockId, tax, s);
      DoubleEntry.OneRow(t, Moves(s));
    }
  }

  /** A user's stocks move to or from the mortgage bank. */
  lemma MortgageMoves(m: Models, m': Models, k: MortgageKey, t: Transaction)
    requires m'.rows == m.rows + [t] && t.stockId == k.stockId && t.reservedStockQuantity == 0
    requires m'.mortgages == m.mortgages[k := InBank(m, k) - t.stockQuantity]
             || (k in m.mortgages && m'.mortgages == m.mortgages - {k} && t.stockQuantity == m.mortgages[k])
    requires m'.lendBank == m.lendBank && m'.lends == m.lends && m'.stocks == m.stocks
    ensures Conserved(m, m')
  {
    hide Sum, MapSum;
    forall s: nat ensures ConservedFor(m, m', s) {
      var p := (k: MortgageKey) => k.stockId == s;
      RowsMove(m, m', [t], s);
      DoubleEntry.OneRow(t, Moves(s));
      MapSumUpdate(m.mortgages, k, InBank(m, k) - t.stockQuantity, p);
      if k in m.mortgages {
        MapSumRemove(m.mortgages, k, p);
      }
    }
  }

  lemma DepositConserved(m: Models, u: nat, stockId: nat, qty: nat)
    ensures Conserved(m, Deposit(m, u, stockId, qty).m)
  {
    var d := Deposit(m, u, stockId, qty);
    hide DepositAmount, StockCount, Wrap64, Conserved;
    NothingMoves(m);
    if d.error.None? {
      var p := CurrentPrice(m, stockId);
      MortgageMoves(m, d.m, MortgageKey(u, stockId, p), Row(u, stockId, Mortgage, 0, 0 - qty, p, 0, DepositAmount(p, qty)));
    }
  }

  lemma RetrieveConserved(m: Models, u: nat, stockId: nat, qty: nat, price: nat)
    ensures Conserved(m, Retrieve(m, u, stockId, qty, price).m)
  {
    var r := Retrieve(m, u, stockId, qty, price);
    hide RetrieveAmount, Wrap64, Conserved;
    NothingMoves(m);
    if r.error.None? {
      MortgageMoves(m, r.m, MortgageKey(u, stockId, price),
                    Row(u, stockId, Mortgage, 0, qty, price, 0, RetrieveAmount(price, qty)));
    }
  }

  lemma MortgageConserved(m: Models, u: nat, stockId: nat, qty: int, price: nat, budget: nat)
    ensures Conserved(m, PerformMortgage(m, u, stockId, qty, price, budget).m)
  {
    if qty >= 0 {
      RetrieveConserved(m, u, stockId, qty, price);
    } else {
      DepositConserved(m, u, stockId, 0 - qty);
    }
    NothingMoves(m);
    hide Retrieve, Deposit, Conserved;
  }

  // -------------------------------------------------------------------------
  // Runs
  // -------------------------------------------------------------------------

  lemma NothingMoves(m: Models)
    ensures Conserved(m, m)
  {
  }

  /** A fill is of an ask and a bid for the same stock. */
  ghost predicate SameStock(op: Op) {
    op.FillOp? ==> op.ask.id != op.bid.id && op.ask.stockId == op.bid.stockId
  }

  lemma WakeConserved(m: Models, o: Order, saved: bool)
    ensures Conserved(m, Wake(m, o, saved))
  {
    NothingMoves(m);
  }

  lemma StepConserved(m: Models, op: Op)
    requires BankFits(m) && SameStock(op)
    ensures Conserved(m, Do(m, op))
  {
    hide PlaceBid, PlaceAsk, Fill, Accounts.Cancel, BuyFromExchange, PerformMortgage, SquareOff, Wake, BankFits, Conserved;
    match op
    case PlaceBidOp(o, fee, budget) => BidConserved(m, o, fee, budget);
    case PlaceAskOp(o, fee, budget) => AskConserved(m, o, fee, budget);
    case FillOp(a, b, price, qty, budget) => FillConserved(m, a, b, price, qty, budget);
    case CancelOp(u, o, budget) => CancelConserved(m, u, o, budget);
    case BuyOp(u, s, qty, budget) => BuyConserved(m, u, s, qty, budget);
    case MortgageOp(u, s, qty, price, budget) => MortgageConserved(m, u, s, qty, price, budget);
    case SquareOffOp(i) =>
      if i < |m.lends| { SquareOffConserved(m, i); } else { NothingMoves(m); }
    case WakeOp(o, budget) => WakeConserved(m, o, budget > 0);
  }

  lemma StepKeepsBank(m: Models, m': Models)
    requires BankFits(m) && Conserved(m, m')
    ensures BankFits(m')
  {
    forall s: nat ensures 0 <= Available(m', s) && BankAssets(m', s) < TWO_32 {
      assert ConservedFor(m, m', s);
      assert 0 <= Available(m, s);
    }
  }

  /** In every run: per stock, what users hold, reserved or not, plus what the bank can lend, plus
      what is mortgaged, minus what was sold into the market, never changes; neither do the bank's
      stocks and claims together; and no user's borrowing in a stock grows beyond the limit. */
  lemma {:induction false} StocksConserved(m: Models, ops: seq<Op>)
    requires BankFits(m) && forall op :: op in ops ==> SameStock(op)
    ensures Conserved(m, RunOps(m, ops)) && BankFits(RunOps(m, ops))
    decreases |ops|
  {
    hide Do, Conserved, BankFits;
    NothingMoves(m);
    if ops != [] {
      var m1 := Do(m, ops[0]);
      StepConserved(m, ops[0]);
      StepKeepsBank(m, m1);
      StocksConserved(m1, ops[1..]);
      ConservedTwice(m, m1, RunOps(m, ops));
    }
  }

  // -------------------------------------------------------------------------
  // Closing the market
  // -------------------------------------------------------------------------

  lemma {:induction false} UpToConserves(m: Models, k: nat)
    requires BankFits(m) && k <= |m.lends|
    ensures BankFits(SquaredOffUpTo(m, k)) && Conserved(m, SquaredOffUpTo(m, k))
    ensures forall i :: 0 <= i < k ==> SquaredOffUpTo(m, k).lends[i].isSquaredOff
    decreases k
  {
    if k == 0 {
      NothingMoves(m);
    } else {
      var m1 := SquaredOffUpTo(m, k - 1);
      UpToConserves(m, k - 1);
      SquareOffConserved(m1, k - 1);
      StepKeepsBank(m1, SquaredOffUpTo(m, k));
      hide Conserved, BankFits;
      ConservedTwice(m, m1, SquaredOffUpTo(m, k));
    }
  }

  /** Squaring off every lend leaves nobody borrowing and brings every lent stock back: the bank can
      lend exactly what it could lend before plus what it had lent out. */
  lemma SquareOffReturnsAll(m: Models, s: nat, u: nat)
    requires BankFits(m)
    ensures var r := SquaredOffUpTo(m, |m.lends|);
            && Available(r, s) == Available(m, s) + Sum(m.lends, Lent(s))
            && ActiveLends(r, u, s) == 0
  {
    var r := SquaredOffUpTo(m, |m.lends|);
    UpToConserves(m, |m.lends|);
    forall l | l in r.lends ensures Lent(s)(l) == 0 && LentTo(u, s)(l) == 0 {
      var i :| 0 <= i < |r.lends| && r.lends[i] == l;
      assert l.isSquaredOff;
    }
    SumZero(r.lends, Lent(s));
    SumZero(r.lends, LentTo(u, s));
    assert ConservedFor(m, r, s);
  }
}
