/** Market depth per price level with its unsent differences (datastreams/MarketDepth.go). */
module Depths {
  import opened Orders

  datatype Trade = Trade(price: nat, qty: nat)

  /** One side of the book: total per price, and the change per price since the last broadcast. */
  datatype Level = Level(depth: map<nat, int>, diff: map<nat, int>)

  datatype Depth = Depth(ask: Level, bid: Level, latestTrades: seq<Trade>, latestTradesDiff: seq<Trade>)

  /** Go map lookup: a missing key reads as zero. */
  function Get(m: map<nat, int>, k: nat): int {
    if k in m then m[k] else 0
  }

  /** Store v, or drop the key when v is zero. */
  function Put(m: map<nat, int>, k: nat, v: int): map<nat, int> {
    if v == 0 then m - {k} else m[k := v]
  }

  function Bucket(isMarket: bool, price: nat): nat {
    if isMarket then 0 else price
  }

  function AddLevel(l: Level, k: nat, qty: nat): Level {
    Level(l.depth[k := Get(l.depth, k) + qty], l.diff[k := Get(l.diff, k) + qty])
  }

  function CloseLevel(l: Level, k: nat, qty: nat): Level {
    var q := if qty > Get(l.depth, k) then Get(l.depth, k) else qty;
    Level(Put(l.depth, k, Get(l.depth, k) - q), Put(l.diff, k, Get(l.diff, k) - q))
  }

  function LevelOf(d: Depth, s: Side): Level {
    if s == AskSide then d.ask else d.bid
  }

  function Added(d: Depth, isMarket: bool, s: Side, price: nat, qty: nat): Depth {
    var l := AddLevel(LevelOf(d, s), Bucket(isMarket, price), qty);
    if s == AskSide then d.(ask := l) else d.(bid := l)
  }

  function Closed(d: Depth, isMarket: bool, s: Side, price: nat, qty: nat): Depth {
    var l := CloseLevel(LevelOf(d, s), Bucket(isMarket, price), qty);
    if s == AskSide then d.(ask := l) else d.(bid := l)
  }

  function Keep20(ts: seq<Trade>): seq<Trade> {
    if |ts| >= 20 then ts[|ts| - 20..] else ts
  }

  function TradeAdded(d: Depth, price: nat, qty: nat): Depth {
    d.(latestTrades := Keep20(d.latestTrades) + [Trade(price, qty)],
       latestTradesDiff := d.latestTradesDiff + [Trade(price, qty)])
  }

  lemma PutInSteps(m: map<nat, int>, k: nat, v: int)
    ensures (if v == 0 then m[k := v] - {k} else m[k := v]) == Put(m, k, v)
  {
  }

  /** The total of side s at a price level. */
  function TotalAt(d: Depth, s: Side, k: nat): int {
    Get(if s == AskSide then d.ask.depth else d.bid.depth, k)
  }

  /** What listeners have not been told yet about it. */
  function PendingAt(d: Depth, s: Side, k: nat): int {
    Get(if s == AskSide then d.ask.diff else d.bid.diff, k)
  }

  /** A closing takes its quantity, or all there is if that is less, from one side and level and from nothing
      else; what is pending changes by the same amount, and a level with nothing left disappears. */
  lemma ClosingTakes(d: Depth, isMarket: bool, s: Side, price: nat, qty: nat, s': Side, p: nat)
    requires TotalAt(d, s, if isMarket then 0 else price) >= 0
    ensures var r, k := Closed(d, isMarket, s, price, qty), if isMarket then 0 else price;
            var taken := if qty <= TotalAt(d, s, k) then qty else TotalAt(d, s, k);
            && TotalAt(r, s', p) == TotalAt(d, s', p) - (if s' == s && p == k then taken else 0)
            && PendingAt(r, s', p) == PendingAt(d, s', p) - (if s' == s && p == k then taken else 0)
            && (TotalAt(r, s, k) == 0 ==> k !in (if s == AskSide then r.ask.depth else r.bid.depth))
            && r.latestTrades == d.latestTrades && r.latestTradesDiff == d.latestTradesDiff
  {
  }

  /** An order adds its quantity to one side and level, and to what is pending there. */
  lemma AddingGives(d: Depth, isMarket: bool, s: Side, price: nat, qty: nat, s': Side, p: nat)
    ensures var r, k := Added(d, isMarket, s, price, qty), if isMarket then 0 else price;
            && TotalAt(r, s', p) == TotalAt(d, s', p) + (if s' == s && p == k then qty else 0)
            && PendingAt(r, s', p) == PendingAt(d, s', p) + (if s' == s && p == k then qty else 0)
            && r.latestTrades == d.latestTrades && r.latestTradesDiff == d.latestTradesDiff
  {
  }

  /** Adding then closing the same quantity restores every total, whatever was there. */
  lemma CloseUndoesAdd(l: Level, k: nat, qty: nat, p: nat)
    requires Get(l.depth, k) >= 0
    ensures var r := CloseLevel(AddLevel(l, k, qty), k, qty);
            Get(r.depth, p) == Get(l.depth, p) && Get(r.diff, p) == Get(l.diff, p)
  {
  }

  // -------------------------------------------------------------------------
  // Listeners: a snapshot at subscription, differences afterwards
  // -------------------------------------------------------------------------

  datatype LevelOp = Add(price: nat, qty: nat) | Close(price: nat, qty: nat) | Broadcast

  function Apply(l: Level, op: LevelOp): Level {
    match op
    case Add(k, q) => AddLevel(l, k, q)
    case Close(k, q) => CloseLevel(l, k, q)
    case Broadcast => l.(diff := map[])
  }

  function ApplyAll(l: Level, ops: seq<LevelOp>): Level
    decreases |ops|
  {
    if ops == [] then l else ApplyAll(Apply(l, ops[0]), ops[1..])
  }

  /** The total at price p in the eyes of a listener who last saw c there: each broadcast adds
      the pending difference. */
  function ListenerView(l: Level, ops: seq<LevelOp>, p: nat, c: int): int
    decreases |ops|
  {
    if ops == [] then c
    else ListenerView(Apply(l, ops[0]), ops[1..], p,
                      if ops[0].Broadcast? then c + Get(l.diff, p) else c)
  }

  lemma DepthAndDiffMoveTogether(l: Level, op: LevelOp, p: nat)
    requires !op.Broadcast?
    ensures var r := Apply(l, op);
            Get(r.depth, p) - Get(r.diff, p) == Get(l.depth, p) - Get(l.diff, p)
  {
  }

  lemma {:induction false} ListenerDrift(l: Level, ops: seq<LevelOp>, p: nat, c: int)
    ensures var r := ApplyAll(l, ops);
            ListenerView(l, ops, p, c) - Get(r.depth, p) + Get(r.diff, p)
            == c - Get(l.depth, p) + Get(l.diff, p)
    decreases |ops|
  {
    if ops != [] {
      var c' := if ops[0].Broadcast? then c + Get(l.diff, p) else c;
      if !ops[0].Broadcast? {
        DepthAndDiffMoveTogether(l, ops[0], p);
      }
      ListenerDrift(Apply(l, ops[0]), ops[1..], p, c');
      assert ListenerView(l, ops, p, c) == ListenerView(Apply(l, ops[0]), ops[1..], p, c');
    }
  }

  /** A listener is sent a snapshot and gets every broadcast from its registration on; the two happen at
      different times, in either order, because registration runs on its own and the snapshot shares the
      live map until it is sent. Following any operations up to a broadcast, the listener sees the true
      total at p if and only if the snapshot had what was already broadcast at registration. */
  lemma ListenerExactIff(snapshot: Level, registered: Level, ops: seq<LevelOp>, p: nat)
    ensures var r := ApplyAll(registered, ops + [Broadcast]);
            ListenerView(registered, ops + [Broadcast], p, Get(snapshot.depth, p)) == Get(r.depth, p)
            <==> Get(snapshot.depth, p) == Get(registered.depth, p) - Get(registered.diff, p)
  {
    ListenerDrift(registered, ops + [Broadcast], p, Get(snapshot.depth, p));
    ApplyAllAppend(registered, ops, Broadcast);
  }

  /** What is broadcast about p during ops. */
  function Sent(l: Level, ops: seq<LevelOp>, p: nat): int {
    ListenerView(l, ops, p, 0)
  }

  lemma {:induction false} ViewAddsSent(l: Level, ops: seq<LevelOp>, p: nat, c: int)
    ensures ListenerView(l, ops, p, c) == c + Sent(l, ops, p)
    decreases |ops|
  {
    if ops != [] {
      var d := if ops[0].Broadcast? then Get(l.diff, p) else 0;
      ViewAddsSent(Apply(l, ops[0]), ops[1..], p, c + d);
      ViewAddsSent(Apply(l, ops[0]), ops[1..], p, d);
    }
  }

  /** If the snapshot comes first: exactly if the broadcasts missed until registration add up to what was
      pending at the snapshot; with none missed, exactly if nothing was pending. */
  lemma SnapshotFirstIff(snapshot: Level, missed: seq<LevelOp>, ops: seq<LevelOp>, p: nat)
    ensures var registered := ApplyAll(snapshot, missed);
            var r := ApplyAll(registered, ops + [Broadcast]);
            ListenerView(registered, ops + [Broadcast], p, Get(snapshot.depth, p)) == Get(r.depth, p)
            <==> Sent(snapshot, missed, p) == Get(snapshot.diff, p)
  {
    ListenerExactIff(snapshot, ApplyAll(snapshot, missed), ops, p);
    ListenerDrift(snapshot, missed, p, 0);
  }

  /** If registration comes first: exactly if what was pending then, and all that changed until the
      snapshot, cancel out, for all of that is in the snapshot and is broadcast to the listener as well. */
  lemma RegistrationFirstIff(registered: Level, between: seq<LevelOp>, ops: seq<LevelOp>, p: nat)
    ensures var snapshot := ApplyAll(registered, between);
            var r := ApplyAll(registered, ops + [Broadcast]);
            ListenerView(registered, ops + [Broadcast], p, Get(snapshot.depth, p)) == Get(r.depth, p)
            <==> Sent(registered, between, p) + Get(snapshot.diff, p) == 0
  {
    ListenerExactIff(ApplyAll(registered, between), registered, ops, p);
    ListenerDrift(registered, between, p, 0);
  }

  lemma {:induction false} ApplyAllAppend(l: Level, ops: seq<LevelOp>, op: LevelOp)
    ensures ApplyAll(l, ops + [op]) == Apply(ApplyAll(l, ops), op)
    decreases |ops|
  {
    if ops == [] {
      assert [op][1..] == [];
    } else {
      assert (ops + [op])[1..] == ops[1..] + [op];
      ApplyAllAppend(Apply(l, ops[0]), ops[1..], op);
    }
  }

  // -------------------------------------------------------------------------
  // Recent trades
  // -------------------------------------------------------------------------

  function TradedAll(d: Depth, ts: seq<Trade>): Depth
    decreases |ts|
  {
    if ts == [] then d else TradedAll(TradeAdded(d, ts[0].price, ts[0].qty), ts[1..])
  }

  function LastOf(n: nat, ts: seq<Trade>): seq<Trade> {
    if |ts| <= n then ts else ts[|ts| - n..]
  }

  /** latestTrades is always the last 21 trades ever reported (20 are kept before each append). */
  lemma {:induction false} KeepsLast21(d: Depth, past: seq<Trade>, ts: seq<Trade>)
    requires d.latestTrades == LastOf(21, past)
    ensures TradedAll(d, ts).latestTrades == LastOf(21, past + ts)
    decreases |ts|
  {
    if ts == [] {
      assert past + ts == past;
    } else {
      var d' := TradeAdded(d, ts[0].price, ts[0].qty);
      assert d'.latestTrades == LastOf(21, past + [ts[0]]);
      KeepsLast21(d', past + [ts[0]], ts[1..]);
      assert past + [ts[0]] + ts[1..] == past + ts;
    }
  }

  // -------------------------------------------------------------------------
  // The stream object
  // -------------------------------------------------------------------------

  class MarketDepthStream {
    var askDepth: map<nat, int>
    var askDepthDiff: map<nat, int>
    var bidDepth: map<nat, int>
    var bidDepthDiff: map<nat, int>
    var latestTrades: seq<Trade>
    var latestTradesDiff: seq<Trade>

    ghost function View(): Depth
      reads this
    {
      Depth(Level(askDepth, askDepthDiff), Level(bidDepth, bidDepthDiff), latestTrades, latestTradesDiff)
    }

    constructor ()
      ensures View() == Depth(Level(map[], map[]), Level(map[], map[]), [], [])
    {
      askDepth, askDepthDiff, bidDepth, bidDepthDiff := map[], map[], map[], map[];
      latestTrades, latestTradesDiff := [], [];
    }

    method AddOrder(isMarket: bool, isAsk: bool, price: nat, stockQuantity: nat)
      modifies this
      ensures View() == Added(old(View()), isMarket, if isAsk then AskSide else BidSide, price, stockQuantity)
    {
      var price := price;
      if isMarket {
        price := 0;
      }
      if isAsk {
        askDepth := askDepth[price := Get(askDepth, price) + stockQuantity];
        askDepthDiff := askDepthDiff[price := Get(askDepthDiff, price) + stockQuantity];
        return;
      }
      bidDepth := bidDepth[price := Get(bidDepth, price) + stockQuantity];
      bidDepthDiff := bidDepthDiff[price := Get(bidDepthDiff, price) + stockQuantity];
    }

    method CloseOrder(isMarket: bool, isAsk: bool, price: nat, stockQuantity: nat)
      modifies this
      ensures View() == Closed(old(View()), isMarket, if isAsk then AskSide else BidSide, price, stockQuantity)
    {
      var price, stockQuantity: int := price, stockQuantity;
      if isMarket {
        price := 0;
      }
      if isAsk {
        if stockQuantity > Get(askDepth, price) {
          stockQuantity := Get(askDepth, price);
        }
        PutInSteps(askDepth, price, Get(askDepth, price) - stockQuantity);
        PutInSteps(askDepthDiff, price, Get(askDepthDiff, price) - stockQuantity);
        askDepth := askDepth[price := Get(askDepth, price) - stockQuantity];
        askDepthDiff := askDepthDiff[price := Get(askDepthDiff, price) - stockQuantity];
        if askDepth[price] == 0 {
          askDepth := askDepth - {price};
        }
        if askDepthDiff[price] == 0 {
          askDepthDiff := askDepthDiff - {price};
        }
        return;
      }
      if stockQuantity > Get(bidDepth, price) {
        stockQuantity := Get(bidDepth, price);
      }
      PutInSteps(bidDepth, price, Get(bidDepth, price) - stockQuantity);
      PutInSteps(bidDepthDiff, price, Get(bidDepthDiff, price) - stockQuantity);
      bidDepth := bidDepth[price := Get(bidDepth, price) - stockQuantity];
      bidDepthDiff := bidDepthDiff[price := Get(bidDepthDiff, price) - stockQuantity];
      if bidDepth[price] == 0 {
        bidDepth := bidDepth - {price};
      }
      if bidDepthDiff[price] == 0 {
        bidDepthDiff := bidDepthDiff - {price};
      }
    }

    method AddTrade(price: nat, qty: nat)
      modifies this
      ensures View() == TradeAdded(old(View()), price, qty)
    {
      var t := Trade(price, qty);
      if |latestTrades| >= 20 {
        latestTrades := latestTrades[|latestTrades| - 20..];
      }
      latestTrades := latestTrades + [t];
      latestTradesDiff := latestTradesDiff + [t];
    }

    /** One turn of run: hand the pending differences to the listeners, if there are any, and
        forget them. */
    method Flush(listeners: nat) returns (ask: map<nat, int>, bid: map<nat, int>, trades: seq<Trade>)
      modifies this
      ensures listeners == 0 ==> View() == old(View()) && ask == bid == map[] && trades == []
      ensures listeners > 0 ==>
        && ask == old(askDepthDiff) && bid == old(bidDepthDiff) && trades == old(latestTradesDiff)
        && View() == Depth(Apply(old(View()).ask, Broadcast), Apply(old(View()).bid, Broadcast),
                           old(latestTrades), [])
    {
      ask, bid, trades := map[], map[], [];
      if listeners == 0 {
        return;
      }
      if |askDepthDiff| != 0 {
        ask, askDepthDiff := askDepthDiff, map[];
      }
      if |bidDepthDiff| != 0 {
        bid, bidDepthDiff := bidDepthDiff, map[];
      }
      if |latestTradesDiff| != 0 {
        trades, latestTradesDiff := latestTradesDiff, [];
      }
    }
  }
}
