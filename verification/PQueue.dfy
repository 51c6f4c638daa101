/** The heap-ordered queue object of matchingengine/pqueue.go. Its twin copies for asks and bids
    are one class; the loops are proved equal to the value functions of module Heap. */
module PQueue {
  import opened Orders
  import opened Wrappers
  import Heap

  class OrderQueue {
    const comparator: PQType
    var items: seq<Order>
    var elemsCount: int

    ghost predicate Valid()
      reads this
    {
      elemsCount == |items| && Heap.IsHeap(comparator, items)
    }

    constructor (pqType: PQType)
      ensures Valid() && comparator == pqType && items == []
    {
      comparator := pqType;
      items := [];
      elemsCount := 0;
    }

    method Push(value: Order)
      requires Valid()
      modifies this
      ensures Valid() && items == Heap.Push(comparator, old(items), value)
      ensures multiset(items) == multiset(old(items)) + multiset{value}
    {
      Heap.PushRefines(comparator, items, value);
      items := items + [value];
      elemsCount := elemsCount + 1;
      SwimUp(elemsCount);
    }

    method Pop() returns (r: Option<Order>)
      requires Valid()
      modifies this
      ensures Valid()
      ensures old(items) == [] ==> r == None && items == []
      ensures old(items) != [] ==>
        && r == Some(old(items)[0])
        && items == Heap.Pop(comparator, old(items))
        && multiset(old(items)) == multiset(items) + multiset{r.value}
        && forall o :: o in old(items) ==> !Less(comparator, r.value, o)
    {
      if elemsCount < 1 {
        return None;
      }
      Heap.PopRefines(comparator, items);
      Heap.HeadMaximal(comparator, items);
      var max := items[0];
      Swap(1, elemsCount);
      items := items[..elemsCount - 1];
      elemsCount := elemsCount - 1;
      SinkDown(1);
      return Some(max);
    }

    method Head() returns (r: Option<Order>)
      requires Valid()
      ensures r == if items == [] then None else Some(items[0])
      ensures r.Some? ==> forall o :: o in items ==> !Less(comparator, r.value, o)
    {
      if elemsCount < 1 {
        return None;
      }
      Heap.HeadMaximal(comparator, items);
      return Some(items[0]);
    }

    method Swap(i: int, j: int)
      requires 1 <= i <= |items| && 1 <= j <= |items|
      modifies this`items
      ensures items == Heap.Exch(old(items), i, j)
    {
      var tmpItem := items[i - 1];
      items := items[i - 1 := items[j - 1]];
      items := items[j - 1 := tmpItem];
    }

    method SwimUp(pos: int)
      requires 0 <= pos <= |items|
      modifies this`items
      ensures items == Heap.Swim(comparator, old(items), pos)
    {
      var k := pos;
      while k > 1 && Less(comparator, Heap.At(items, k / 2), Heap.At(items, k))
        invariant 0 <= k <= |items|
        invariant Heap.Swim(comparator, items, k) == Heap.Swim(comparator, old(items), pos)
      {
        Swap(k / 2, k);
        k := k / 2;
      }
    }

    method SinkDown(pos: int)
      requires 1 <= pos && elemsCount == |items|
      modifies this`items
      ensures items == Heap.Sink(comparator, old(items), pos)
    {
      var k := pos;
      while 2 * k <= elemsCount
        invariant 1 <= k && |items| == elemsCount
        invariant Heap.Sink(comparator, items, k) == Heap.Sink(comparator, old(items), pos)
        decreases elemsCount - k
      {
        var j := 2 * k;
        if j < elemsCount && Less(comparator, Heap.At(items, j), Heap.At(items, j + 1)) {
          j := j + 1;
        }
        if !Less(comparator, Heap.At(items, k), Heap.At(items, j)) {
          break;
        }
        Swap(k, j);
        k := j;
      }
    }
  }
}
