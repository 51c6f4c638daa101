/** Mortgaging pays 80% of the price and retrieving costs 90%, both truncated toward zero: whether
    that can be turned into a source of cash depends on the price alone. */
module Mortgages {
  import opened Words
  import opened Orders
  import opened State
  import opened Accounts
  import opened Sums
  import opened Reservations
  import DoubleEntry
  import Taxes

  /** Mortgage n stocks, or retrieve n of them. */
  datatype Move = In(n: nat) | Out(n: nat)

  function StocksIn(moves: seq<Move>): int
    decreases |moves|
  {
    if moves == [] then 0
    else
      var last := moves[|moves| - 1];
      StocksIn(moves[..|moves| - 1]) + if last.In? then last.n as int else 0 - last.n
  }

  function Gained(price: nat, moves: seq<Move>): int
    decreases |moves|
  {
    if moves == [] then 0
    else
      var last := moves[|moves| - 1];
      Gained(price, moves[..|moves| - 1])
      + if last.In? then DepositAmount(price, last.n) else RetrieveAmount(price, last.n)
  }

  /** The bank never gives back more than it has. */
  ghost predicate Possible(moves: seq<Move>) {
    forall i :: 0 <= i <= |moves| ==> StocksIn(moves[..i]) >= 0
  }

  /** The cash gained is covered by the stocks still mortgaged, at the deposit rate. */
  ghost predicate Covered(price: nat, moves: seq<Move>) {
    100 * Gained(price, moves) <= MORTGAGE_DEPOSIT_RATE * price * StocksIn(moves)
  }

  // -------------------------------------------------------------------------
  // Truncation, one piece at a time
  // -------------------------------------------------------------------------

  /** A deposit never pays more than its rate. */
  lemma DepositBound(price: nat, n: nat)
    ensures 0 <= 100 * DepositAmount(price, n) <= MORTGAGE_DEPOSIT_RATE * price * n
  {
    var worth := price * n * 80;
    assert worth == 80 * price * n;
  }

  /** A retrieval costs at least the deposit rate, whatever the truncation, except at prices below 5. */
  lemma RetrieveBound(price: nat, n: nat)
    requires price == 0 || price >= 5
    ensures 100 * RetrieveAmount(price, n) <= 0 - MORTGAGE_DEPOSIT_RATE * price * n
  {
    var worth := price * n;
    RetrieveFloor(price, n);
    if price > 0 && n > 0 {
      AtLeastOne(n, price);
    } else {
      assert worth == 0;
    }
    assert MORTGAGE_DEPOSIT_RATE * price * n == 80 * worth;
  }

  lemma RetrieveFloor(price: nat, n: nat)
    ensures RetrieveAmount(price, n) == 0 - price * n * 90 / 100
  {
    assert (0 - price) * n * 90 == 0 - price * n * 90;
  }

  // -------------------------------------------------------------------------
  // Any sequence of moves
  // -------------------------------------------------------------------------

  /** What moving q stocks out of the bank (in, when negative) adds to the user's cash. */
  function AmountOf(price: nat, q: int): int {
    if q >= 0 then RetrieveAmount(price, q) else DepositAmount(price, 0 - q)
  }

  lemma MoveKeepsCover(price: nat, stocks: int, gained: int, q: int)
    requires price == 0 || price >= 5
    requires 100 * gained <= MORTGAGE_DEPOSIT_RATE * price * stocks
    ensures 100 * (gained + AmountOf(price, q)) <= MORTGAGE_DEPOSIT_RATE * price * (stocks - q)
  {
    var c := MORTGAGE_DEPOSIT_RATE * price;
    if q >= 0 {
      RetrieveBound(price, q);
    } else {
      DepositBound(price, 0 - q);
      TimesSum(c, 0, 0 - q);
    }
    TimesSum(c, stocks, 0 - q);
    TimesSum(c, q, 0 - q);
  }

  lemma {:induction false} NeverPumps(price: nat, moves: seq<Move>)
    requires price == 0 || price >= 5
    ensures Covered(price, moves)
    decreases |moves|
  {
    if moves != [] {
      var k := |moves| - 1;
      var last := moves[k];
      NeverPumps(price, moves[..k]);
      MoveKeepsCover(price, StocksIn(moves[..k]), Gained(price, moves[..k]), if last.In? then 0 - last.n else last.n);
      DepositOfNothing(price);
    }
  }

  lemma DepositOfNothing(price: nat)
    ensures DepositAmount(price, 0) == RetrieveAmount(price, 0) == 0
  {
  }

  lemma TimesSum(c: int, x: int, y: int)
    ensures c * (x + y) == c * x + c * y
  {
  }

  /** Mortgage five stocks at once and retrieve them one by one. */
  function Pump(): seq<Move> {
    [In(5), Out(1), Out(1), Out(1), Out(1), Out(1)]
  }

  lemma OneMore(price: nat, moves: seq<Move>, x: Move, all: seq<Move>)
    requires all == moves + [x]
    ensures StocksIn(all) == StocksIn(moves) + if x.In? then x.n as int else 0 - x.n
    ensures Gained(price, all)
            == Gained(price, moves) + if x.In? then DepositAmount(price, x.n) else RetrieveAmount(price, x.n)
    ensures Possible(moves) && StocksIn(all) >= 0 ==> Possible(all)
  {
    assert all[..|all| - 1] == moves;
    if Possible(moves) && StocksIn(all) >= 0 {
      forall i | 0 <= i <= |all| ensures StocksIn(all[..i]) >= 0 {
        if i < |all| {
          assert all[..i] == moves[..i];
        } else {
          assert all[..i] == all;
        }
      }
    }
  }

  lemma PumpRuns(price: nat)
    ensures Possible(Pump()) && StocksIn(Pump()) == 0
    ensures Gained(price, Pump()) == DepositAmount(price, 5) + 5 * RetrieveAmount(price, 1)
  {
    hide Gained, StocksIn, Possible, DepositAmount, RetrieveAmount;
    Nothing(price);
    OneMore(price, [], In(5), [In(5)]);
    OneMore(price, [In(5)], Out(1), [In(5), Out(1)]);
    OneMore(price, [In(5), Out(1)], Out(1), [In(5), Out(1), Out(1)]);
    OneMore(price, [In(5), Out(1), Out(1)], Out(1), [In(5), Out(1), Out(1), Out(1)]);
    OneMore(price, [In(5), Out(1), Out(1), Out(1)], Out(1), [In(5), Out(1), Out(1), Out(1), Out(1)]);
    OneMore(price, [In(5), Out(1), Out(1), Out(1), Out(1)], Out(1), Pump());
  }

  lemma Nothing(price: nat)
    ensures Possible([]) && StocksIn([]) == 0 && Gained(price, []) == 0
  {
  }

  /** At prices 1 to 4 the pump yields cash and leaves nothing mortgaged. */
  lemma PumpGains(price: nat)
    requires 1 <= price <= 4
    ensures Possible(Pump()) && StocksIn(Pump()) == 0 && Gained(price, Pump()) == 5 - price
  {
    PumpRuns(price);
  }

  /** No sequence of mortgages and split retrievals gains cash that the stocks left in the bank do
      not cover, if and only if the price is 0 or at least 5. */
  lemma NoPumpIff(price: nat)
    ensures (forall moves :: Possible(moves) ==> Covered(price, moves)) <==> price == 0 || price >= 5
  {
    if price == 0 || price >= 5 {
      forall moves { NeverPumps(price, moves); }
    } else {
      PumpGains(price);
      assert !Covered(price, Pump());
    }
  }

  // -------------------------------------------------------------------------
  // On the ledger
  // -------------------------------------------------------------------------

  /** What rows say user k.userId gained by mortgaging k.stockId at k.price. */
  function GainOf(k: MortgageKey): Transaction -> int {
    (t: Transaction) =>
      if t.kind == Mortgage && t.userId == k.userId && t.stockId == k.stockId && t.price == k.price then t.total else 0
  }

  ghost predicate LedgerCovered(m: Models, k: MortgageKey) {
    100 * Sum(m.rows, GainOf(k)) <= MORTGAGE_DEPOSIT_RATE * k.price * InBank(m, k)
  }

  /** Rows of other kinds, with the mortgage bank untouched, change nothing here. */
  lemma OtherRows(m: Models, m': Models, rows: seq<Transaction>, k: MortgageKey)
    requires m'.rows == m.rows + rows && m'.mortgages == m.mortgages
    requires forall t :: t in rows ==> t.kind != Mortgage
    ensures LedgerCovered(m', k) == LedgerCovered(m, k)
  {
    SumConcat(m.rows, rows, GainOf(k));
    forall t | t in rows ensures GainOf(k)(t) == 0 {}
    SumZero(rows, GainOf(k));
  }

  lemma MortgageRow(m: Models, m': Models, t: Transaction, k: MortgageKey)
    requires k.price == 0 || k.price >= 5
    requires m'.rows == m.rows + [t] && t.kind == Mortgage && t.total == AmountOf(t.price, t.stockQuantity)
    requires InBank(m', k) == InBank(m, k)
                              - if k == MortgageKey(t.userId, t.stockId, t.price) then t.stockQuantity else 0
    requires LedgerCovered(m, k)
    ensures LedgerCovered(m', k)
  {
    SumAppend(m.rows, t, GainOf(k));
    if k == MortgageKey(t.userId, t.stockId, t.price) {
      MoveKeepsCover(k.price, InBank(m, k), Sum(m.rows, GainOf(k)), t.stockQuantity);
    }
    hide AmountOf, Sum;
  }

  /** m' has more rows, none about mortgages, and the same mortgages. */
  ghost predicate Unmortgaged(m: Models, m': Models) {
    && m'.mortgages == m.mortgages && m.rows <= m'.rows
    && forall i :: |m.rows| <= i < |m'.rows| ==> m'.rows[i].kind != Mortgage
  }

  lemma UnmortgagedCovers(m: Models, m': Models, k: MortgageKey)
    requires Unmortgaged(m, m') && LedgerCovered(m, k)
    ensures LedgerCovered(m', k)
  {
    var rows := m'.rows[|m.rows|..];
    assert m'.rows == m.rows + rows;
    forall t | t in rows ensures t.kind != Mortgage {
      var i :| 0 <= i < |rows| && rows[i] == t;
      assert t == m'.rows[|m.rows| + i];
    }
    OtherRows(m, m', rows, k);
  }

  lemma BidUnmortgaged(m: Models, o: Order, fee: nat, budget: nat)
    ensures Unmortgaged(m, PlaceBid(m, o, fee, budget).m)
  {
    hide BidError, OrderPrice, Wrap64, Unmortgaged;
    var r := PlaceBid(m, o, fee, budget);
    if r.recorded {
      var reserve: int := o.quantity * OrderPrice(m, o);
      TwoRowsUnmortgaged(m, r.m, Row(o.userId, o.stockId, OrderFee, 0, 0, 0, 0, 0 - fee),
                         Row(o.userId, o.stockId, PlaceOrder, 0, 0, 0, reserve, 0 - reserve));
    } else {
      SameUnmortgaged(m, r.m);
    }
  }

  lemma TwoRowsUnmortgaged(m: Models, m': Models, t: Transaction, t': Transaction)
    requires m'.rows == m.rows + [t, t'] && m'.mortgages == m.mortgages && t.kind != Mortgage && t'.kind != Mortgage
    ensures Unmortgaged(m, m')
  {
  }

  lemma AskUnmortgaged(m: Models, o: Order, fee: nat, budget: nat)
    ensures Unmortgaged(m, PlaceAsk(m, o, fee, budget).m)
  {
    hide PriceError, ShortSellQty, AskPlaced, ActiveLends, Available;
    if PlaceAsk(m, o, fee, budget).recorded {
      AskPlacedUnmortgaged(m, o, fee, ShortSellQty(m, o));
    }
  }

  lemma AskPlacedUnmortgaged(m: Models, o: Order, fee: nat, short: int)
    requires o.userId in m.users
    ensures Unmortgaged(m, AskPlaced(m, o, fee, short))
  {
    hide BankUpdated, Wrap64, Available;
  }

  lemma FillUnmortgaged(m: Models, a: Order, b: Order, price: nat, qty: nat, budget: nat)
    requires a.id != b.id
    ensures Unmortgaged(m, Fill(m, a, b, price, qty, budget).m)
  {
    hide Unmortgaged;
    if Fill(m, a, b, price, qty, budget).traded {
      TradeShape(m, a, b, price, qty, budget);
      TradeMortgages(m, a, b, price, qty, budget);
      hide Fill, CashLeft;
      TradeUnmortgaged(m, Fill(m, a, b, price, qty, budget).m, a, b, PartiesOf(m, a, b), m.deposits[b.id], price, qty);
    } else if Fill(m, a, b, price, qty, budget).bid == Done {
      ClosedShape(m, a, b, price, qty, budget);
      hide Fill, CashLeft, Refund;
      RowUnmortgaged(m, Fill(m, a, b, price, qty, budget).m, RefundRow(b, Refund(b, Look(m.progress, b), m.deposits[b.id])));
    } else {
      NoFill(m, a, b, price, qty, budget);
      hide Fill, HalfCloses;
      SameUnmortgaged(m, Fill(m, a, b, price, qty, budget).m);
    }
  }

  lemma SameUnmortgaged(m: Models, m': Models)
    requires m'.rows == m.rows && m'.mortgages == m.mortgages
    ensures Unmortgaged(m, m')
  {
  }

  lemma WakeUnmortgaged(m: Models, o: Order, saved: bool)
    ensures Unmortgaged(m, Wake(m, o, saved))
  {
    SameUnmortgaged(m, Wake(m, o, saved));
  }

  lemma RowUnmortgaged(m: Models, m': Models, t: Transaction)
    requires m'.rows == m.rows + [t] && m'.mortgages == m.mortgages && t.kind != Mortgage
    ensures Unmortgaged(m, m')
  {
  }

  lemma TradeUnmortgaged(m: Models, m': Models, a: Order, b: Order, x: Parties, reserved: int, price: nat, qty: nat)
    requires m'.rows == m.rows + TradeRows(a, b, x, reserved, price, qty) && m'.mortgages == m.mortgages
    ensures Unmortgaged(m, m')
  {
    hide AskTax, BidTax, Portion;
  }

  lemma TradeMortgages(m: Models, a: Order, b: Order, price: nat, qty: nat, budget: nat)
    requires Fill(m, a, b, price, qty, budget).traded
    ensures Fill(m, a, b, price, qty, budget).m.mortgages == m.mortgages
  {
    hide AskTax, BidTax, TradeRows, PutSummary, CashLeft, FillWrites, Traded, StockAfterTrade, Refund;
  }

  lemma CancelUnmortgaged(m: Models, u: nat, o: Order, budget: nat)
    ensures Unmortgaged(m, Accounts.Cancel(m, u, o, budget).m)
  {
    var r := Accounts.Cancel(m, u, o, budget);
    hide Unmortgaged, Refund, Seen, Unfulfilled;
    DoubleEntry.CancelElsewhere(m, u, o, budget);
    if r.error.None? {
      DoubleEntry.CancelRows(m, u, o, budget);
      hide Accounts.Cancel;
      if o.id.side == AskSide {
        var q: int := Unfulfilled(o, Seen(m, o));
        RowUnmortgaged(m, r.m, Row(o.userId, o.stockId, CancelOrder, 0 - q, q, 0, 0, 0));
      } else {
        RowUnmortgaged(m, r.m, RefundRow(o, Refund(o, Seen(m, o), m.deposits[o.id])));
      }
    } else {
      DoubleEntry.FailedCancelKeeps(m, u, o, budget);
      hide Accounts.Cancel;
      SameUnmortgaged(m, r.m);
    }
  }

  lemma SquareOffUnmortgaged(m: Models, i: nat)
    requires i < |m.lends|
    ensures Unmortgaged(m, SquareOff(m, i))
  {
    var l := m.lends[i];
    hide BankUpdated, Unmortgaged, Available, CurrentPrice;
    if l.isSquaredOff {
      SameUnmortgaged(m, m);
    } else {
      RowUnmortgaged(m, SquareOff(m, i),
                     Row(l.userId, l.stockId, ShortSell, 0, 0 - l.stockQuantity, CurrentPrice(m, l.stockId), 0, 0));
    }
  }

  lemma BuyUnmortgaged(m: Models, u: nat, s: nat, qty: nat, budget: nat)
    ensures Unmortgaged(m, BuyFromExchange(m, u, s, qty, budget).m)
  {
    hide BoughtQty, Taxes.BuyTax, Taxes.Bought, Wrap64;
    if BuyFromExchange(m, u, s, qty, budget).error.None? {
      DoubleEntry.BuyWrote(m, u, s, qty, budget);
    }
  }

  lemma DepositCovers(m: Models, u: nat, s: nat, qty: nat, k: MortgageKey)
    requires qty > 0 && (k.price == 0 || k.price >= 5) && LedgerCovered(m, k)
    ensures LedgerCovered(Deposit(m, u, s, qty).m, k)
  {
    var r, p := Deposit(m, u, s, qty), CurrentPrice(m, s);
    hide DepositAmount, StockCount, LedgerCovered, Wrap64;
    if r.error.None? {
      MortgageRow(m, r.m, Row(u, s, Mortgage, 0, 0 - qty, p, 0, DepositAmount(p, qty)), k);
    }
  }

  lemma RetrieveCovers(m: Models, u: nat, s: nat, qty: nat, price: nat, k: MortgageKey)
    requires (k.price == 0 || k.price >= 5) && LedgerCovered(m, k)
    ensures LedgerCovered(Retrieve(m, u, s, qty, price).m, k)
  {
    var r := Retrieve(m, u, s, qty, price);
    hide RetrieveAmount, LedgerCovered, Wrap64;
    if r.error.None? {
      MortgageRow(m, r.m, Row(u, s, Mortgage, 0, qty, price, 0, RetrieveAmount(price, qty)), k);
    }
  }

  lemma MortgageCovers(m: Models, u: nat, s: nat, q: int, price: nat, budget: nat, k: MortgageKey)
    requires (k.price == 0 || k.price >= 5) && LedgerCovered(m, k)
    ensures LedgerCovered(PerformMortgage(m, u, s, q, price, budget).m, k)
  {
    hide Deposit, Retrieve, LedgerCovered;
    if q >= 0 {
      RetrieveCovers(m, u, s, q, price, k);
    } else {
      DepositCovers(m, u, s, 0 - q, k);
    }
  }

  lemma StepCovers(m: Models, op: Op, k: MortgageKey)
    requires k.price == 0 || k.price >= 5
    requires LedgerCovered(m, k) && DoubleEntry.Paired(op)
    ensures LedgerCovered(Do(m, op), k)
  {
    hide LedgerCovered, Unmortgaged, PerformMortgage, Fill, PlaceAsk, PlaceBid, BuyFromExchange, Accounts.Cancel, SquareOff, Wake;
    match op
    case PlaceBidOp(o, fee, budget) =>
      BidUnmortgaged(m, o, fee, budget);
      UnmortgagedCovers(m, Do(m, op), k);
    case PlaceAskOp(o, fee, budget) =>
      AskUnmortgaged(m, o, fee, budget);
      UnmortgagedCovers(m, Do(m, op), k);
    case FillOp(a, b, price, qty, budget) =>
      FillUnmortgaged(m, a, b, price, qty, budget);
      UnmortgagedCovers(m, Do(m, op), k);
    case CancelOp(u, o, budget) =>
      CancelUnmortgaged(m, u, o, budget);
      UnmortgagedCovers(m, Do(m, op), k);
    case BuyOp(u, s, qty, budget) =>
      BuyUnmortgaged(m, u, s, qty, budget);
      UnmortgagedCovers(m, Do(m, op), k);
    case MortgageOp(u, s, q, price, budget) => MortgageCovers(m, u, s, q, price, budget, k);
    case SquareOffOp(i) =>
      if i < |m.lends| {
        SquareOffUnmortgaged(m, i);
        UnmortgagedCovers(m, Do(m, op), k);
      }
    case WakeOp(o, budget) =>
      WakeUnmortgaged(m, o, budget > 0);
      UnmortgagedCovers(m, Do(m, op), k);
  }

  /** Over any run of all operations, at a price of 0 or at least 5 the ledger never shows a user
      more mortgage cash than 80% of what they still have in the bank at that price: nothing at all
      once everything is retrieved. */
  lemma {:induction false} LedgerNeverPumps(m: Models, ops: seq<Op>, k: MortgageKey)
    requires k.price == 0 || k.price >= 5
    requires LedgerCovered(m, k) && DoubleEntry.AllPaired(ops)
    ensures LedgerCovered(RunOps(m, ops), k)
    decreases |ops|
  {
    hide Do, LedgerCovered;
    if ops != [] {
      StepCovers(m, ops[0], k);
      LedgerNeverPumps(Do(m, ops[0]), ops[1..], k);
    }
  }
}
