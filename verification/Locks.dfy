/** Locking accounts and stocks: every interleaving of the operations runs to its end, because each
    takes its locks in one common order. A channel that is closed is modelled as the release of its
    lock; locks are exclusive. */
module Locks {

  /** An account; userLocks, the map of accounts; allStocks, the map of stocks; one stock. */
  datatype Lock = UserLock(id: nat) | UserMap | StockMap | StockLock(id: nat)

  function Class(l: Lock): nat {
    match l
    case UserLock(_) => 0
    case UserMap => 1
    case StockMap => 2
    case StockLock(_) => 3
  }

  function Number(l: Lock): nat {
    match l
    case UserLock(id) => id
    case StockLock(id) => id
    case _ => 0
  }

  /** The common order: accounts by id, the two maps, then stocks by id. */
  predicate Before(a: Lock, b: Lock) {
    Class(a) < Class(b) || (Class(a) == Class(b) && Number(a) < Number(b))
  }

  datatype Instr = Acquire(lock: Lock) | Release(lock: Lock)

  datatype Task = Task(script: seq<Instr>, pc: nat)

  function HeldAfter(done: seq<Instr>): set<Lock>
    decreases |done|
  {
    if done == [] then {}
    else
      var last := done[|done| - 1];
      var before := HeldAfter(done[..|done| - 1]);
      if last.Acquire? then before + {last.lock} else before - {last.lock}
  }

  function LocksOf(t: Task): set<Lock> {
    if t.pc <= |t.script| then HeldAfter(t.script[..t.pc]) else {}
  }

  /** Locks are taken in the common order and all given back. */
  ghost predicate Disciplined(script: seq<Instr>) {
    && (forall i :: 0 <= i < |script| && script[i].Acquire?
                    ==> forall l :: l in HeldAfter(script[..i]) ==> Before(l, script[i].lock))
    && HeldAfter(script) == {}
  }

  // -------------------------------------------------------------------------
  // Running
  // -------------------------------------------------------------------------

  predicate Unfinished(t: Task) {
    t.pc < |t.script|
  }

  /** Task i can go on: it is not finished, and no one holds the lock it wants. */
  ghost predicate Enabled(ts: seq<Task>, i: nat) {
    && i < |ts| && Unfinished(ts[i])
    && (ts[i].script[ts[i].pc].Acquire?
        ==> forall j :: 0 <= j < |ts| ==> ts[i].script[ts[i].pc].lock !in LocksOf(ts[j]))
  }

  function StepTask(ts: seq<Task>, i: nat): seq<Task>
    requires i < |ts|
  {
    ts[i := ts[i].(pc := ts[i].pc + 1)]
  }

  ghost predicate Schedulable(ts: seq<Task>, schedule: seq<nat>)
    decreases |schedule|
  {
    schedule != [] ==> Enabled(ts, schedule[0]) && Schedulable(StepTask(ts, schedule[0]), schedule[1..])
  }

  function RunTasks(ts: seq<Task>, schedule: seq<nat>): seq<Task>
    decreases |schedule|
  {
    if schedule == [] || schedule[0] >= |ts| then ts else RunTasks(StepTask(ts, schedule[0]), schedule[1..])
  }

  ghost predicate AllFinished(ts: seq<Task>) {
    forall i :: 0 <= i < |ts| ==> !Unfinished(ts[i])
  }

  // -------------------------------------------------------------------------
  // The invariant
  // -------------------------------------------------------------------------

  /** No lock is held twice. */
  ghost predicate Exclusive(ts: seq<Task>) {
    forall i, j :: 0 <= i < j < |ts| ==> LocksOf(ts[i]) !! LocksOf(ts[j])
  }

  ghost predicate Sound(ts: seq<Task>) {
    && Exclusive(ts)
    && forall i :: 0 <= i < |ts| ==> Disciplined(ts[i].script) && ts[i].pc <= |ts[i].script|
  }

  lemma StartsSound(ts: seq<Task>)
    requires forall i :: 0 <= i < |ts| ==> Disciplined(ts[i].script) && ts[i].pc == 0
    ensures Sound(ts)
  {
    forall i | 0 <= i < |ts| ensures LocksOf(ts[i]) == {} {
      assert ts[i].script[..0] == [];
    }
  }

  lemma HeldNext(t: Task)
    requires Unfinished(t)
    ensures var x := t.script[t.pc];
            LocksOf(t.(pc := t.pc + 1)) == if x.Acquire? then LocksOf(t) + {x.lock} else LocksOf(t) - {x.lock}
  {
    assert t.script[..t.pc + 1][..t.pc] == t.script[..t.pc];
  }

  /** Mutual exclusion is kept by every step. */
  lemma StepSound(ts: seq<Task>, i: nat)
    requires Sound(ts) && Enabled(ts, i)
    ensures Sound(StepTask(ts, i))
  {
    HeldNext(ts[i]);
    var r := StepTask(ts, i);
    hide LocksOf, Disciplined;
    forall j, k | 0 <= j < k < |r| ensures LocksOf(r[j]) !! LocksOf(r[k]) {
      assert LocksOf(ts[j]) !! LocksOf(ts[k]);
    }
  }

  // -------------------------------------------------------------------------
  // No deadlock
  // -------------------------------------------------------------------------

  /** A place in the common order as a number, given a bound on the numbers of accounts and stocks. */
  function Rank(l: Lock, bound: nat): nat {
    Class(l) * (bound + 1) + Number(l)
  }

  lemma RankGrows(a: Lock, b: Lock, bound: nat)
    requires Before(a, b) && Number(a) <= bound
    ensures Rank(a, bound) < Rank(b, bound)
  {
    if Class(a) < Class(b) {
      assert Class(b) * (bound + 1) >= (Class(a) + 1) * (bound + 1) == Class(a) * (bound + 1) + bound + 1;
    }
  }

  lemma RankTop(l: Lock, bound: nat)
    requires Number(l) <= bound
    ensures Rank(l, bound) <= 4 * (bound + 1)
  {
  }

  /** Every lock that any task ever takes. */
  ghost predicate Bounded(ts: seq<Task>, bound: nat) {
    forall i, k :: 0 <= i < |ts| && 0 <= k < |ts[i].script| ==> Number(ts[i].script[k].lock) <= bound
  }

  /** If a task is blocked, its lock is held by an unfinished task; that one, if it is blocked as
      well, wants a lock further up. So following the chain leads to a task that can go on. */
  lemma {:induction false} Chase(ts: seq<Task>, i: nat, bound: nat) returns (e: nat)
    requires Sound(ts) && Bounded(ts, bound) && i < |ts| && Unfinished(ts[i])
    ensures Enabled(ts, e)
    decreases 4 * (bound + 1) - Rank(ts[i].script[ts[i].pc].lock, bound)
  {
    if Enabled(ts, i) {
      return i;
    }
    var want := ts[i].script[ts[i].pc].lock;
    var j: nat :| j < |ts| && want in LocksOf(ts[j]);
    HolderUnfinished(ts[j], want);
    if Enabled(ts, j) {
      return j;
    }
    var next := ts[j].script[ts[j].pc].lock;
    assert Before(want, next);
    RankGrows(want, next, bound);
    RankTop(next, bound);
    e := Chase(ts, j, bound);
  }

  lemma HolderUnfinished(t: Task, l: Lock)
    requires Disciplined(t.script) && t.pc <= |t.script| && l in LocksOf(t)
    ensures Unfinished(t)
  {
    assert t.script[..|t.script|] == t.script;
  }

  lemma Bounds(ts: seq<Task>) returns (bound: nat)
    ensures Bounded(ts, bound)
  {
    bound := 0;
    for i := 0 to |ts|
      invariant forall j, k :: 0 <= j < i && 0 <= k < |ts[j].script| ==> Number(ts[j].script[k].lock) <= bound
    {
      for n := 0 to |ts[i].script|
        invariant forall j, k :: 0 <= j < i && 0 <= k < |ts[j].script| ==> Number(ts[j].script[k].lock) <= bound
        invariant forall k :: 0 <= k < n ==> Number(ts[i].script[k].lock) <= bound
      {
        bound := bound + Number(ts[i].script[n].lock);
      }
    }
  }

  /** While anyone is unfinished, someone can go on. */
  lemma NoDeadlock(ts: seq<Task>) returns (e: nat)
    requires Sound(ts) && !AllFinished(ts)
    ensures Enabled(ts, e)
  {
    var bound := Bounds(ts);
    var i: nat :| i < |ts| && Unfinished(ts[i]);
    e := Chase(ts, i, bound);
  }

  // -------------------------------------------------------------------------
  // Every schedule finishes
  // -------------------------------------------------------------------------

  /** Instructions still to run. */
  function Work(ts: seq<Task>): nat
    decreases |ts|
  {
    if ts == [] then 0
    else (if Unfinished(ts[0]) then |ts[0].script| - ts[0].pc else 0) + Work(ts[1..])
  }

  lemma {:induction false} StepWork(ts: seq<Task>, i: nat)
    requires i < |ts| && Unfinished(ts[i])
    ensures Work(StepTask(ts, i)) == Work(ts) - 1
    decreases |ts|
  {
    if i == 0 {
      assert StepTask(ts, i)[1..] == ts[1..];
    } else {
      assert StepTask(ts, i)[1..] == StepTask(ts[1..], i - 1);
      StepWork(ts[1..], i - 1);
    }
  }

  lemma {:induction false} NoWorkLeft(ts: seq<Task>)
    ensures Work(ts) == 0 <==> AllFinished(ts)
    decreases |ts|
  {
    if ts != [] {
      NoWorkLeft(ts[1..]);
      assert AllFinished(ts) <==> !Unfinished(ts[0]) && AllFinished(ts[1..]) by {
        forall i | 0 <= i < |ts| ensures i > 0 ==> ts[i] == ts[1..][i - 1] {}
        if !Unfinished(ts[0]) && AllFinished(ts[1..]) {
          forall i | 0 <= i < |ts| ensures !Unfinished(ts[i]) {
            if i > 0 { assert ts[i] == ts[1..][i - 1]; }
          }
        }
        if AllFinished(ts) {
          forall i | 0 <= i < |ts[1..]| ensures !Unfinished(ts[1..][i]) { assert ts[1..][i] == ts[i + 1]; }
        }
      }
    }
  }

  /** However the operations interleave: locks stay exclusive, no more steps can be taken than there
      are instructions, the operations have all finished exactly when that many have been taken, and
      until then another step can always be taken. */
  lemma {:induction false} EveryScheduleFinishes(ts: seq<Task>, schedule: seq<nat>)
    requires Sound(ts) && Schedulable(ts, schedule)
    ensures Sound(RunTasks(ts, schedule)) && |schedule| <= Work(ts)
    ensures AllFinished(RunTasks(ts, schedule)) <==> |schedule| == Work(ts)
    ensures !AllFinished(RunTasks(ts, schedule)) ==> exists e :: Enabled(RunTasks(ts, schedule), e)
    decreases |schedule|
  {
    if schedule == [] {
      NoWorkLeft(ts);
      if !AllFinished(ts) {
        var e := NoDeadlock(ts);
      }
    } else {
      StepSound(ts, schedule[0]);
      StepWork(ts, schedule[0]);
      EveryScheduleFinishes(StepTask(ts, schedule[0]), schedule[1..]);
    }
  }

  // -------------------------------------------------------------------------
  // Nested locking
  // -------------------------------------------------------------------------

  /** Take a lock, do what is inside, give it back, and go on. */
  datatype Plan = Done | Take(lock: Lock, inner: Plan, next: Plan)

  function Script(p: Plan): seq<Instr> {
    match p
    case Done => []
    case Take(l, inner, next) => [Acquire(l)] + Script(inner) + [Release(l)] + Script(next)
  }

  /** Every lock taken while held is held comes after all of them. */
  ghost predicate Ascends(p: Plan, held: set<Lock>) {
    match p
    case Done => true
    case Take(l, inner, next) => (forall h :: h in held ==> Before(h, l)) && Ascends(inner, held + {l}) && Ascends(next, held)
  }

  function Applied(held: set<Lock>, x: Instr): set<Lock> {
    if x.Acquire? then held + {x.lock} else held - {x.lock}
  }

  /** What is held after running s from held, and whether s only takes locks further up. */
  function HeldFrom(held: set<Lock>, s: seq<Instr>): set<Lock>
    decreases |s|
  {
    if s == [] then held else HeldFrom(Applied(held, s[0]), s[1..])
  }

  ghost predicate Upward(held: set<Lock>, s: seq<Instr>)
    decreases |s|
  {
    s != [] ==>
      && (s[0].Acquire? ==> forall h :: h in held ==> Before(h, s[0].lock))
      && Upward(Applied(held, s[0]), s[1..])
  }

  lemma {:induction false} FromConcat(held: set<Lock>, a: seq<Instr>, b: seq<Instr>)
    ensures HeldFrom(held, a + b) == HeldFrom(HeldFrom(held, a), b)
    ensures Upward(held, a + b) <==> Upward(held, a) && Upward(HeldFrom(held, a), b)
    decreases |a|
  {
    if a == [] {
      assert a + b == b;
    } else {
      assert (a + b)[0] == a[0] && (a + b)[1..] == a[1..] + b;
      FromConcat(Applied(held, a[0]), a[1..], b);
    }
  }

  lemma {:induction false} AfterIsFrom(s: seq<Instr>)
    ensures HeldAfter(s) == HeldFrom({}, s)
    decreases |s|
  {
    if s != [] {
      var k := |s| - 1;
      AfterIsFrom(s[..k]);
      assert s == s[..k] + [s[k]];
      FromConcat({}, s[..k], [s[k]]);
      assert HeldFrom(HeldFrom({}, s[..k]), [s[k]]) == Applied(HeldFrom({}, s[..k]), s[k]);
    }
  }

  /** Step by step, or at every index. */
  lemma {:induction false} UpwardIff(s: seq<Instr>)
    ensures Upward({}, s) <==> forall i :: 0 <= i < |s| && s[i].Acquire?
                                           ==> forall l :: l in HeldAfter(s[..i]) ==> Before(l, s[i].lock)
    decreases |s|
  {
    if s != [] {
      var k := |s| - 1;
      UpwardIff(s[..k]);
      AfterIsFrom(s[..k]);
      assert s == s[..k] + [s[k]];
      FromConcat({}, s[..k], [s[k]]);
      assert forall i :: 0 <= i < k ==> s[..k][..i] == s[..i];
      assert Upward(HeldFrom({}, s[..k]), [s[k]])
             <==> (s[k].Acquire? ==> forall l :: l in HeldAfter(s[..k]) ==> Before(l, s[k].lock));
    }
  }

  lemma {:induction false} PlanUpward(p: Plan, held: set<Lock>)
    ensures Upward(held, Script(p)) <==> Ascends(p, held)
    ensures Ascends(p, held) ==> HeldFrom(held, Script(p)) == held
    decreases p
  {
    if p.Take? {
      var l, inner, next := p.lock, Script(p.inner), Script(p.next);
      PlanUpward(p.inner, held + {l});
      PlanUpward(p.next, held);
      assert Script(p) == [Acquire(l)] + (inner + ([Release(l)] + next));
      FromConcat(held, [Acquire(l)], inner + ([Release(l)] + next));
      assert HeldFrom(held, [Acquire(l)]) == held + {l} && (Upward(held, [Acquire(l)]) <==> forall h :: h in held ==> Before(h, l));
      FromConcat(held + {l}, inner, [Release(l)] + next);
      FromConcat(held + {l}, [Release(l)], next);
      if forall h :: h in held ==> Before(h, l) {
        assert l !in held;
        assert HeldFrom(held + {l}, [Release(l)]) == held;
      }
    }
  }

  /** Locks taken one inside another are taken in the common order and all given back if and only if every
      inner one comes after those around it. */
  lemma DisciplinedIff(p: Plan)
    ensures Disciplined(Script(p)) <==> Ascends(p, {})
  {
    PlanUpward(p, {});
    UpwardIff(Script(p));
    AfterIsFrom(Script(p));
  }

  function Then(p: Plan, q: Plan): Plan {
    match p
    case Done => q
    case Take(l, inner, next) => Take(l, inner, Then(next, q))
  }

  lemma {:induction false} ThenAscends(p: Plan, q: Plan, held: set<Lock>)
    ensures Ascends(Then(p, q), held) <==> Ascends(p, held) && Ascends(q, held)
    decreases p
  {
    if p.Take? {
      ThenAscends(p.next, q, held);
    }
  }

  // -------------------------------------------------------------------------
  // The operations
  // -------------------------------------------------------------------------

  function Touch(l: Lock): Plan {
    Take(l, Done, Done)
  }

  /** getUserExclusively: look the account up in the map, let go of the map, then lock the account. */
  function WithUser(id: nat, inner: Plan): Plan {
    Take(UserMap, Done, Take(UserLock(id), inner, Done))
  }

  /** UpdateStockVolume, then UpdateStockPrice of a known stock. */
  function TradedPlan(stockId: nat): Plan {
    Then(Touch(StockMap), Then(Touch(StockMap), Touch(StockLock(stockId))))
  }

  /** recordOneMinuteOHLC: each stock in turn, in any order, inside the lock of the map. */
  function RecordPlan(stockIds: seq<nat>): Plan {
    Take(StockMap, EachStock(stockIds), Done)
  }

  function EachStock(stockIds: seq<nat>): Plan
    decreases |stockIds|
  {
    if stockIds == [] then Done else Take(StockLock(stockIds[0]), Done, EachStock(stockIds[1..]))
  }

  /** A fill of two users' orders; placing, or mortgaging, which read the stock's price before or while
      they hold the account; buying, which holds the stock; cancelling, which takes the account alone;
      the recorder; reading or setting a price. */
  datatype Operation =
    | FillPair(id1: nat, id2: nat, stockId: nat)
    | PlaceOrder(userId: nat, stockId: nat)
    | BuyStocks(userId: nat, stockId: nat)
    | CancelOrder(userId: nat)
    | RecordMinute(stockIds: seq<nat>)
    | UpdatePrice(stockId: nat)

  function PlanOf(op: Operation): Plan {
    match op
    case FillPair(id1, id2, stockId) =>
      var (first, second) := if id1 < id2 then (id1, id2) else (id2, id1);
      WithUser(first, WithUser(second, TradedPlan(stockId)))
    case PlaceOrder(userId, stockId) => Then(Touch(StockLock(stockId)), WithUser(userId, Touch(StockLock(stockId))))
    case BuyStocks(userId, stockId) => WithUser(userId, Touch(StockLock(stockId)))
    case CancelOrder(userId) => WithUser(userId, Done)
    case RecordMinute(stockIds) => RecordPlan(stockIds)
    case UpdatePrice(stockId) => Then(Touch(StockMap), Touch(StockLock(stockId)))
  }

  /** A fill between a user and themselves. */
  predicate SelfFill(op: Operation) {
    op.FillPair? && op.id1 == op.id2
  }

  lemma {:induction false} EachStockAscends(stockIds: seq<nat>)
    ensures Ascends(EachStock(stockIds), {StockMap})
    decreases |stockIds|
  {
    if stockIds != [] {
      EachStockAscends(stockIds[1..]);
    }
  }

  lemma TouchAscends(l: Lock, held: set<Lock>)
    ensures Ascends(Touch(l), held) <==> forall h :: h in held ==> Before(h, l)
  {
  }

  lemma WithUserAscends(id: nat, inner: Plan, held: set<Lock>)
    ensures Ascends(WithUser(id, inner), held)
            <==> (forall h :: h in held ==> Before(h, UserMap) && Before(h, UserLock(id))) && Ascends(inner, held + {UserLock(id)})
  {
    assert Ascends(Done, held + {UserMap}) && Ascends(Done, held);
  }

  lemma TradedAscends(stockId: nat, held: set<Lock>)
    requires forall h :: h in held ==> h.UserLock?
    ensures Ascends(TradedPlan(stockId), held)
  {
    ThenAscends(Touch(StockMap), Then(Touch(StockMap), Touch(StockLock(stockId))), held);
    ThenAscends(Touch(StockMap), Touch(StockLock(stockId)), held);
    TouchAscends(StockMap, held);
    TouchAscends(StockLock(stockId), held);
  }

  lemma FillAscendsIff(id1: nat, id2: nat, stockId: nat)
    ensures Ascends(PlanOf(FillPair(id1, id2, stockId)), {}) <==> id1 != id2
  {
    var (first, second) := if id1 < id2 then (id1, id2) else (id2, id1);
    var none: set<Lock> := {};
    var held := none + {UserLock(first)};
    WithUserAscends(first, WithUser(second, TradedPlan(stockId)), none);
    WithUserAscends(second, TradedPlan(stockId), held);
    TradedAscends(stockId, held + {UserLock(second)});
    hide WithUser, TradedPlan, Ascends;
    assert UserLock(first) in held;
  }

  /** Every operation takes its locks in the common order, except exactly a fill between a user and
      themselves, which the matcher never asks for. */
  lemma OperationDisciplinedIff(op: Operation)
    ensures Disciplined(Script(PlanOf(op))) <==> !SelfFill(op)
  {
    DisciplinedIff(PlanOf(op));
    var none: set<Lock> := {};
    match op
    case FillPair(id1, id2, stockId) => FillAscendsIff(id1, id2, stockId);
    case PlaceOrder(userId, stockId) =>
      ThenAscends(Touch(StockLock(stockId)), WithUser(userId, Touch(StockLock(stockId))), none);
      WithUserAscends(userId, Touch(StockLock(stockId)), none);
    case BuyStocks(userId, stockId) => WithUserAscends(userId, Touch(StockLock(stockId)), none);
    case CancelOrder(userId) => WithUserAscends(userId, Done, none);
    case RecordMinute(stockIds) =>
      EachStockAscends(stockIds);
      assert none + {StockMap} == {StockMap};
    case UpdatePrice(stockId) => ThenAscends(Touch(StockMap), Touch(StockLock(stockId)), none);
  }

  /** What one goroutine does: operations one after the other. */
  function PlanAll(ops: seq<Operation>): Plan
    decreases |ops|
  {
    if ops == [] then Done else Then(PlanOf(ops[0]), PlanAll(ops[1..]))
  }

  lemma {:induction false} AllAscend(ops: seq<Operation>)
    ensures Ascends(PlanAll(ops), {}) <==> forall op :: op in ops ==> !SelfFill(op)
    decreases |ops|
  {
    if ops != [] {
      ThenAscends(PlanOf(ops[0]), PlanAll(ops[1..]), {});
      DisciplinedIff(PlanOf(ops[0]));
      OperationDisciplinedIff(ops[0]);
      AllAscend(ops[1..]);
      assert ops == [ops[0]] + ops[1..];
    }
  }

  function TaskOf(ops: seq<Operation>): Task {
    Task(Script(PlanAll(ops)), 0)
  }

  /** Goroutines that start with no lock and run any operations, fills being between different users:
      under every schedule, locks stay exclusive, someone can always go on until all are finished, and all
      are finished after as many steps as there are instructions. */
  lemma OperationsFinish(work: seq<seq<Operation>>, ts: seq<Task>, schedule: seq<nat>)
    requires |ts| == |work| && forall i :: 0 <= i < |ts| ==> ts[i] == TaskOf(work[i])
    requires forall i, k :: 0 <= i < |work| && 0 <= k < |work[i]| ==> !SelfFill(work[i][k])
    requires Schedulable(ts, schedule)
    ensures Exclusive(RunTasks(ts, schedule)) && |schedule| <= Work(ts)
    ensures AllFinished(RunTasks(ts, schedule)) <==> |schedule| == Work(ts)
    ensures !AllFinished(RunTasks(ts, schedule)) ==> exists e :: Enabled(RunTasks(ts, schedule), e)
  {
    forall i | 0 <= i < |ts| ensures Disciplined(ts[i].script) && ts[i].pc == 0 {
      forall op | op in work[i] ensures !SelfFill(op) {
        var k :| 0 <= k < |work[i]| && work[i][k] == op;
      }
      AllAscend(work[i]);
      DisciplinedIff(PlanAll(work[i]));
    }
    StartsSound(ts);
    EveryScheduleFinishes(ts, schedule);
  }

  // -------------------------------------------------------------------------
  // Two ways to get stuck
  // -------------------------------------------------------------------------

  lemma HeldStep(done: seq<Instr>, x: Instr, all: seq<Instr>)
    requires all == done + [x]
    ensures HeldAfter(all) == Applied(HeldAfter(done), x)
  {
    assert all[..|all| - 1] == done;
  }

  /** A fill between a user and themselves would block on its own lock, whatever else runs: it holds the
      account when it wants it again. */
  lemma SelfFillBlocks(ts: seq<Task>, i: nat, id: nat, stockId: nat)
    requires i < |ts| && ts[i] == Task(Script(PlanOf(FillPair(id, id, stockId))), 5)
    ensures !Enabled(ts, i)
  {
    var s := ts[i].script;
    SelfFillScript(id, stockId);
    assert s[..0] == [];
    HeldStep(s[..0], s[0], s[..1]);
    HeldStep(s[..1], s[1], s[..2]);
    HeldStep(s[..2], s[2], s[..3]);
    HeldStep(s[..3], s[3], s[..4]);
    HeldStep(s[..4], s[4], s[..5]);
    hide Script, PlanOf;
    assert UserLock(id) in LocksOf(ts[i]);
  }

  lemma SelfFillScript(id: nat, stockId: nat)
    ensures var s := Script(PlanOf(FillPair(id, id, stockId)));
            |s| > 5 && s[..6] == [Acquire(UserMap), Release(UserMap), Acquire(UserLock(id)),
                                  Acquire(UserMap), Release(UserMap), Acquire(UserLock(id))]
  {
    var inner := Script(WithUser(id, TradedPlan(stockId)));
    WithUserScript(id, TradedPlan(stockId));
    WithUserScript(id, WithUser(id, TradedPlan(stockId)));
    hide WithUser, TradedPlan, Script;
  }

  lemma WithUserScript(id: nat, inner: Plan)
    ensures Script(WithUser(id, inner))
            == [Acquire(UserMap), Release(UserMap), Acquire(UserLock(id))] + Script(inner) + [Release(UserLock(id))]
  {
    var l := UserLock(id);
    assert Script(Done) == [];
    assert Script(Take(l, inner, Done)) == [Acquire(l)] + Script(inner) + [Release(l)] + [];
    assert Script(WithUser(id, inner)) == [Acquire(UserMap)] + [] + [Release(UserMap)] + Script(Take(l, inner, Done));
  }

  /** UpdateStockPrice of a stock that does not exist returns without letting go of the map of stocks. */
  function LeakScript(): seq<Instr> {
    [Acquire(StockMap)]
  }

  /** From then on nothing that wants the map, no fill among others, ever goes on. */
  lemma {:induction false} LeakBlocksForever(ts: seq<Task>, i: nat, schedule: seq<nat>, j: nat)
    requires i < |ts| && ts[i] == Task(LeakScript(), 1) && Schedulable(ts, schedule)
    ensures var r := RunTasks(ts, schedule);
            && |r| == |ts| && r[i] == ts[i]
            && (j < |r| && Unfinished(r[j]) && r[j].script[r[j].pc] == Acquire(StockMap) ==> !Enabled(r, j))
    decreases |schedule|
  {
    if schedule == [] {
      assert LeakScript()[..1] == LeakScript();
      HeldStep([], Acquire(StockMap), LeakScript());
      assert StockMap in LocksOf(ts[i]);
    } else {
      LeakBlocksForever(StepTask(ts, schedule[0]), i, schedule[1..], j);
    }
  }
}
