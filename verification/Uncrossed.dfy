/** The book stays uncrossed, except for stop-losses woken on the way. */
module Uncrossed {
  import opened Orders
  import opened State
  import opened Matching
  import opened BookTheorems
  import opened NoOrderLost
  import opened DepthAgrees
  import opened DepthStops
  import opened DepthRuns
  import Heap
  import Seqs

  /** Two resting orders of different users that would trade. */
  ghost predicate Crossing(b: Book, ask: Order, bid: Order) {
    ask in b.ask.live && bid in b.bid.live && ask.userId != bid.userId && IsOrderMatching(ask, bid)
  }

  ghost predicate IsUncrossed(b: Book) {
    forall ask, bid :: !Crossing(b, ask, bid)
  }

  /** x is what some stop-loss dormant in h looks like once woken. */
  ghost predicate WokenFrom(h: Half, x: Order) {
    x in TriggeredAll(h.stops)
  }

  /** Whoever is live after the call was live before, has been woken, or is the resting order. */
  lemma LiveComesFrom(h: Half, r: Half, popped: multiset<Order>, added: multiset<Order>, x: Order)
    requires Population(r) + popped == Population(h) + added
    requires x in r.live
    ensures x in h.live || WokenFrom(h, x) || x in added
  {
    assert x in multiset(r.live);
    assert x in Population(r) + popped;
    assert x in multiset(h.live) || x in multiset(TriggeredAll(h.stops)) || x in added;
  }

  /** When an order rests, no other user's live order matches it. */
  lemma {:induction false} RestedMatchesNobody(b: Book, o: Order, f: Desk, c: Order)
    requires Valid(b) && o.oType != StopLoss && Process(b, o, f).end == Rested
    requires c in Process(b, o, f).b.Live(Opposite(o.id.side)) && c.userId != o.userId
    ensures !Matches(o, c)
    decreases |b.Live(Opposite(o.id.side))| + |b.Of(Opposite(o.id.side)).stops|
  {
    var s := Opposite(o.id.side);
    if !HasMatch(b, o) {
      TopMatchCorrect(b, o);
      RestHalves(b, o);
      assert ValidHalf(s, b.Of(s));
      PutBackRestores(LiveType(s), b.Live(s), o.userId);
      Seqs.SameMembers(Rest(b, o).Live(s), b.Live(s), []);
    } else {
      RoundConserves(b, o, f);
      RestedMatchesNobody(PlayRound(b, o, f).b, o, f, c);
    }
  }

  /** Where an order left live comes from. */
  lemma LeftFrom(b: Book, o: Order, f: Desk, s: Side, x: Order)
    requires Valid(b) && o.oType != StopLoss && x in Process(b, o, f).b.Live(s)
    ensures x in b.Live(s) || WokenFrom(b.Of(s), x) || (x == o && Process(b, o, f).end == Rested && o.id.side == s)
  {
    var r := Process(b, o, f);
    ProcessConserves(b, o, f);
    hide Process, Population, Valid, WokenFrom;
    if s == o.id.side {
      LiveComesFrom(b.Of(s), r.b.Of(s), multiset{}, if r.end == Rested then multiset{o} else multiset{}, x);
    } else {
      LiveComesFrom(b.Of(s), r.b.Of(s), multiset(r.popped), multiset{}, x);
    }
  }

  /** Where two orders left crossing come from. */
  lemma CrossingComesFrom(b: Book, o: Order, f: Desk, ask: Order, bid: Order)
    requires Valid(b) && o.oType != StopLoss && Crossing(Process(b, o, f).b, ask, bid)
    ensures ask in b.ask.live || WokenFrom(b.ask, ask) || (ask == o && Process(b, o, f).end == Rested && o.id.side == AskSide)
    ensures bid in b.bid.live || WokenFrom(b.bid, bid) || (bid == o && Process(b, o, f).end == Rested && o.id.side == BidSide)
  {
    hide Process, Valid, WokenFrom, IsOrderMatching;
    LeftFrom(b, o, f, AskSide, ask);
    LeftFrom(b, o, f, BidSide, bid);
  }

  /** From an uncrossed book, any two orders left crossing include a stop-loss that was dormant
      before the call and woken by one of its trades. */
  lemma OnlyWokenOrdersCross(b: Book, o: Order, f: Desk, ask: Order, bid: Order)
    requires Valid(b) && IsUncrossed(b) && o.oType != StopLoss
    requires Crossing(Process(b, o, f).b, ask, bid)
    ensures WokenFrom(b.ask, ask) || WokenFrom(b.bid, bid)
  {
    hide Process, Valid, WokenFrom, IsOrderMatching;
    CrossingComesFrom(b, o, f, ask, bid);
    assert !Crossing(b, ask, bid);
    if ask == o && o.id.side == AskSide && Process(b, o, f).end == Rested {
      RestedMatchesNobody(b, o, f, bid);
    } else if bid == o && o.id.side == BidSide && Process(b, o, f).end == Rested {
      RestedMatchesNobody(b, o, f, ask);
    }
  }

  // -------------------------------------------------------------------------
  // Exactly when a call leaves orders crossing
  // -------------------------------------------------------------------------

  /** y is what a stop dormant in h, which the price reaches, looks like once woken. */
  ghost predicate Reached(h: Half, price: nat, y: Order) {
    exists x :: x in h.stops && ShouldTrigger(price, x) && y == Triggered(x)
  }

  /** What the next turn pops for a finished counter-order: the head of the queue once stops are woken. */
  function NextPopped(b: Book, o: Order, f: Desk): seq<Order>
    requires HasMatch(b, o)
  {
    var s := Opposite(o.id.side);
    var h := AfterFill(s, Half(TopMatch(b, o).2, b.Of(s).stops), NextFill(b, o, f).traded, NextPrice(b, o));
    if TopStatus(b, o, f) == Undone || h.live == [] then [] else [h.live[0]]
  }

  /** y is live or woken by the next turn, and not popped by it. */
  ghost predicate StaysLive(b: Book, o: Order, f: Desk, t: Side, y: Order)
    requires HasMatch(b, o)
  {
    (y in b.Live(t) || (NextFill(b, o, f).traded && Reached(b.Of(t), NextPrice(b, o), y))) && y !in NextPopped(b, o, f)
  }

  lemma ReachedFacts(s: Side, h: Half, price: nat, y: Order)
    requires ValidHalf(s, h) && Reached(h, price, y)
    ensures y.id.side == s && IsMarket(y.oType) && y in Population(h)
  {
    var x :| x in h.stops && ShouldTrigger(price, x) && y == Triggered(x);
    StopInPopulation(h, x);
    hide Population;
  }

  /** Waking at a price adds the stops reached to the live queue. */
  lemma AfterFillLive(s: Side, h: Half, traded: bool, price: nat, y: Order)
    requires ValidHalf(s, h)
    ensures y in AfterFill(s, h, traded, price).live <==> y in h.live || (traded && Reached(h, price, y))
  {
    if traded {
      var w := WokenOf(s, h, price);
      TriggerContents(s, h, price);
      TriggerExact(s, h, price);
      WokenAreReached(s, h, price);
      hide TriggerHalf, WokenOf, ValidHalf, ShouldTrigger;
      Seqs.SameMembers(TriggerHalf(s, h, price).live, h.live, TriggeredAll(w));
      if y in TriggeredAll(w) {
        var x := TriggeredMember(w, y);
      }
    }
  }

  lemma OwnSideLive(b: Book, o: Order, f: Desk, y: Order)
    requires Valid(b) && HasMatch(b, o)
    ensures y in PlayRound(b, o, f).b.Live(o.id.side) <==> StaysLive(b, o, f, o.id.side, y)
  {
    var us := o.id.side;
    assert ValidHalf(us, b.Of(us));
    RoundHalves(b, o, f);
    TopMatchHalf(b, o);
    AfterFillLive(us, b.Of(us), NextFill(b, o, f).traded, NextPrice(b, o), y);
    if y in b.Live(us) || (NextFill(b, o, f).traded && Reached(b.Of(us), NextPrice(b, o), y)) {
      assert y.id.side == us by {
        if y !in b.Live(us) { ReachedFacts(us, b.Of(us), NextPrice(b, o), y); }
      }
      if y in NextPopped(b, o, f) { PoppedSide(b, o, f, y); }
    }
    hide PlayRound, TopMatch, AfterFill, AfterPop, NextFill, NextPrice, Reached, Population, ValidHalf, NextPopped;
  }

  lemma PoppedSide(b: Book, o: Order, f: Desk, y: Order)
    requires Valid(b) && HasMatch(b, o) && y in NextPopped(b, o, f)
    ensures y.id.side == Opposite(o.id.side)
  {
    var s := Opposite(o.id.side);
    TopMatchHalf(b, o);
    AfterFillKeeps(s, Half(TopMatch(b, o).2, b.Of(s).stops), NextFill(b, o, f).traded, NextPrice(b, o));
    hide TopMatch, NextFill, NextPrice, AfterFill, Population;
  }

  /** The counter side's queue before the pop holds each of its orders once. */
  lemma CounterSideLive(b: Book, o: Order, f: Desk, y: Order)
    requires Valid(b) && HasMatch(b, o) && UniqueIds(Population(b.Of(Opposite(o.id.side))))
    ensures y in PlayRound(b, o, f).b.Live(Opposite(o.id.side)) <==> StaysLive(b, o, f, Opposite(o.id.side), y)
  {
    var s := Opposite(o.id.side);
    var (_, own, rest) := TopMatch(b, o);
    var traded, price, h := NextFill(b, o, f).traded, NextPrice(b, o), Half(rest, b.Of(s).stops);
    var r := PlayRound(b, o, f);
    RoundConserves(b, o, f);
    RoundHalves(b, o, f);
    TopMatchHalf(b, o);
    assert ValidHalf(s, b.Of(s));
    SkipOwnFacts(LiveType(s), b.Live(s), o.userId);
    AfterFillKeeps(s, h, traded, price);
    AfterFillLive(s, h, traded, price, y);
    AfterPopContents(s, AfterFill(s, h, traded, price), r.topDone, own);
    assert NextPopped(b, o, f) == r.popped;
    Seqs.SameMembers(b.Live(s), own, rest);
    hide PlayRound, TopMatch, AfterFill, AfterPop, NextFill, NextPrice, ValidHalf, NextPopped, SkipOwn, Heap.IsHeap, Population, ShouldTrigger;
    assert Reached(h, price, y) <==> Reached(b.Of(s), price, y);
    PoppedOnce(r.b.Of(s), r.popped, Population(b.Of(s)), AfterFill(s, h, traded, price).live, own, y);
  }

  lemma PoppedOnce(r: Half, popped: seq<Order>, all: multiset<Order>, live: seq<Order>, own: seq<Order>, y: Order)
    requires Population(r) + multiset(popped) == all && UniqueIds(all)
    requires multiset(r.live) + multiset(popped) == multiset(live) + multiset(own)
    ensures y in r.live <==> (y in live || y in own) && y !in popped
  {
    assert y in r.live <==> y in multiset(r.live);
    assert y in popped <==> y in multiset(popped);
    assert y in live || y in own <==> y in multiset(live) + multiset(own);
    assert all[y] == Population(r)[y] + multiset(popped)[y];
  }

  /** So the live orders after a turn are those that stay. */
  lemma LiveAfterTurn(b: Book, o: Order, f: Desk, t: Side, y: Order)
    requires Valid(b) && HasMatch(b, o) && UniqueIds(Population(b.Of(Opposite(o.id.side))))
    ensures y in PlayRound(b, o, f).b.Live(t) <==> StaysLive(b, o, f, t, y)
  {
    hide PlayRound, StaysLive, HasMatch, Population;
    if t == o.id.side {
      OwnSideLive(b, o, f, y);
    } else {
      CounterSideLive(b, o, f, y);
    }
  }

  /** A stop-loss x of side t that the next turn wakes and does not pop, and another user's order c opposite
      it that is live or woken, and not popped. */
  ghost predicate Faces(b: Book, o: Order, f: Desk, t: Side, x: Order, c: Order)
    requires HasMatch(b, o)
  {
    && NextFill(b, o, f).traded && Reached(b.Of(t), NextPrice(b, o), x)
    && StaysLive(b, o, f, t, x) && StaysLive(b, o, f, Opposite(t), c) && c.userId != x.userId
  }

  ghost predicate TurnUncrossed(b: Book, o: Order, f: Desk)
    requires HasMatch(b, o)
  {
    forall t: Side, x: Order, c: Order :: !Faces(b, o, f, t, x, c)
  }

  /** From an uncrossed book a turn leaves the book uncrossed if and only if each stop-loss it wakes and does
      not pop has only its own user's orders opposite it. */
  lemma TurnUncrossedIff(b: Book, o: Order, f: Desk)
    requires Valid(b) && IsUncrossed(b) && HasMatch(b, o) && UniqueIds(Population(b.Of(Opposite(o.id.side))))
    ensures IsUncrossed(PlayRound(b, o, f).b) <==> TurnUncrossed(b, o, f)
  {
    var r := PlayRound(b, o, f).b;
    hide PlayRound, HasMatch, NextPopped, Reached, NextFill, NextPrice, Population, IsOrderMatching, Valid, UniqueIds;
    if t: Side, x: Order, c: Order :| Faces(b, o, f, t, x, c) {
      LiveAfterTurn(b, o, f, t, x);
      LiveAfterTurn(b, o, f, Opposite(t), c);
      ReachedMatches(b, o, t, x, c);
      assert if t == AskSide then Crossing(r, x, c) else Crossing(r, c, x);
    } else {
      forall ask, bid ensures !Crossing(r, ask, bid) {
        LiveAfterTurn(b, o, f, AskSide, ask);
        LiveAfterTurn(b, o, f, BidSide, bid);
        assert !Crossing(b, ask, bid);
        assert !Faces(b, o, f, AskSide, ask, bid) && !Faces(b, o, f, BidSide, bid, ask);
      }
    }
  }

  lemma ReachedMatches(b: Book, o: Order, t: Side, x: Order, c: Order)
    requires Valid(b) && HasMatch(b, o) && Reached(b.Of(t), NextPrice(b, o), x)
    ensures IsOrderMatching(x, c) && IsOrderMatching(c, x)
  {
    assert ValidHalf(t, b.Of(t));
    hide NextPrice, Reached;
    ReachedFacts(t, b.Of(t), NextPrice(b, o), x);
  }

  /** Every turn of the call leaves the book uncrossed. */
  ghost predicate CallUncrossed(b: Book, o: Order, f: Desk)
    decreases |b.Live(Opposite(o.id.side))| + |b.Of(Opposite(o.id.side)).stops|
  {
    HasMatch(b, o) ==>
      var r := PlayRound(b, o, f);
      TurnUncrossed(b, o, f) && (r.topDone && !r.done ==> CallUncrossed(r.b, o, f))
  }

  ghost predicate UncrossedThroughout(b: Book, o: Order, f: Desk)
    decreases |b.Live(Opposite(o.id.side))| + |b.Of(Opposite(o.id.side)).stops|
  {
    if !HasMatch(b, o) then IsUncrossed(Rest(b, o))
    else
      var r := PlayRound(b, o, f);
      IsUncrossed(r.b) && (r.topDone && !r.done ==> UncrossedThroughout(r.b, o, f))
  }

  /** Resting adds no crossing pair, and removes none. */
  lemma RestUncrossedIff(b: Book, o: Order)
    requires Valid(b) && !HasMatch(b, o)
    ensures IsUncrossed(Rest(b, o)) <==> IsUncrossed(b)
  {
    var us, s, r := o.id.side, Opposite(o.id.side), Rest(b, o);
    RestQueues(b, o);
    TopMatchCorrect(b, o);
    hide Rest, HasMatch, IsOrderMatching, Valid;
    assert multiset([o] + b.Live(us)) == multiset{o} + multiset(b.Live(us));
    Seqs.SameMembers(r.Live(us), [o], b.Live(us));
    Seqs.SameMembers(r.Live(s), b.Live(s), []);
    forall ask, bid | Crossing(b, ask, bid) ensures Crossing(r, ask, bid) {}
    forall ask, bid | Crossing(r, ask, bid) ensures Crossing(b, ask, bid) {}
  }

  /** For any dormant stop-losses and any fills: from an uncrossed book a call leaves it uncrossed after every
      turn if and only if each stop-loss woken and not popped has only its own user's orders opposite it. */
  lemma {:induction false} StaysUncrossedIff(b: Book, o: Order, f: Desk)
    requires Valid(b) && IsUncrossed(b) && o.oType != StopLoss && UniqueIds(Population(b.Of(Opposite(o.id.side))))
    ensures UncrossedThroughout(b, o, f) <==> CallUncrossed(b, o, f)
    ensures CallUncrossed(b, o, f) ==> IsUncrossed(Process(b, o, f).b)
    decreases |b.Live(Opposite(o.id.side))| + |b.Of(Opposite(o.id.side)).stops|
  {
    hide PlayRound, HasMatch, Population, IsUncrossed, Valid, Rest, TurnUncrossed, UniqueIds;
    if HasMatch(b, o) {
      var r := PlayRound(b, o, f);
      TurnUncrossedIff(b, o, f);
      RoundConserves(b, o, f);
      UniqueSubset(Population(b.Of(Opposite(o.id.side))), Population(r.b.Of(Opposite(o.id.side))));
      if r.topDone && !r.done && TurnUncrossed(b, o, f) {
        StaysUncrossedIff(r.b, o, f);
      }
    } else {
      RestUncrossedIff(b, o);
    }
  }

  /** Two orders of different users that stay across the next turn would trade. */
  ghost predicate CrossAfter(b: Book, o: Order, f: Desk, ask: Order, bid: Order)
    requires HasMatch(b, o)
  {
    && StaysLive(b, o, f, AskSide, ask) && StaysLive(b, o, f, BidSide, bid)
    && ask.userId != bid.userId && IsOrderMatching(ask, bid)
  }

  /** The last turn of the call, or the resting, finds nothing that will cross. */
  ghost predicate EndsUncrossed(b: Book, o: Order, f: Desk)
    decreases |b.Live(Opposite(o.id.side))| + |b.Of(Opposite(o.id.side)).stops|
  {
    if !HasMatch(b, o) then IsUncrossed(b)
    else
      var r := PlayRound(b, o, f);
      if r.topDone && !r.done then EndsUncrossed(r.b, o, f)
      else forall ask: Order, bid: Order :: !CrossAfter(b, o, f, ask, bid)
  }

  /** From any book, crossed or not, this decides whether the call leaves it uncrossed. */
  lemma {:induction false} EndsUncrossedIff(b: Book, o: Order, f: Desk)
    requires Valid(b) && o.oType != StopLoss && UniqueIds(Population(b.Of(Opposite(o.id.side))))
    ensures IsUncrossed(Process(b, o, f).b) <==> EndsUncrossed(b, o, f)
    decreases |b.Live(Opposite(o.id.side))| + |b.Of(Opposite(o.id.side)).stops|
  {
    hide PlayRound, HasMatch, Population, Valid, Rest, UniqueIds, StaysLive, IsOrderMatching;
    if HasMatch(b, o) {
      var r := PlayRound(b, o, f);
      RoundConserves(b, o, f);
      UniqueSubset(Population(b.Of(Opposite(o.id.side))), Population(r.b.Of(Opposite(o.id.side))));
      if r.topDone && !r.done {
        hide IsUncrossed, CrossAfter;
        EndsUncrossedIff(r.b, o, f);
      } else {
        forall ask, bid ensures Crossing(r.b, ask, bid) <==> CrossAfter(b, o, f, ask, bid) {
          LiveAfterTurn(b, o, f, AskSide, ask);
          LiveAfterTurn(b, o, f, BidSide, bid);
        }
        hide Crossing, CrossAfter;
      }
    } else {
      RestUncrossedIff(b, o);
    }
  }

  /** If the call wakes no stop-loss, an uncrossed book is uncrossed afterwards. */
  lemma StaysUncrossed(b: Book, o: Order, f: Desk)
    requires Valid(b) && IsUncrossed(b) && o.oType != StopLoss
    requires forall s: Side :: Process(b, o, f).b.Of(s).stops == b.Of(s).stops
    ensures IsUncrossed(Process(b, o, f).b)
  {
    var r := Process(b, o, f);
    ProcessConserves(b, o, f);
    forall ask, bid ensures !Crossing(r.b, ask, bid) {
      var before := Crossing(b, ask, bid);
      if Crossing(r.b, ask, bid) {
        var s := Opposite(o.id.side);
        var (mine, theirs) := if o.id.side == AskSide then (ask, bid) else (bid, ask);
        assert r.b.Of(s).stops == b.Of(s).stops && r.b.Of(o.id.side).stops == b.Of(o.id.side).stops;
        SameStops(b.Of(s), r.b.Of(s), multiset(r.popped), multiset{}, theirs);
        SameStops(b.Of(o.id.side), r.b.Of(o.id.side), multiset{},
                  if r.end == Rested then multiset{o} else multiset{}, mine);
        if mine == o && r.end == Rested {
          RestedMatchesNobody(b, o, f, theirs);
        }
      }
    }
  }

  lemma SameStops(h: Half, r: Half, popped: multiset<Order>, added: multiset<Order>, x: Order)
    requires Population(r) + popped == Population(h) + added && r.stops == h.stops
    requires x in r.live
    ensures x in h.live || x in added
  {
    assert multiset(r.live) + popped == multiset(h.live) + added by {
      assert multiset(r.live) + popped == Population(r) + popped - multiset(TriggeredAll(r.stops));
    }
    assert x in multiset(r.live);
    assert x in multiset(h.live) + added;
  }
}
