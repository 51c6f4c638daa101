/** Sequences and the multisets they hold. */
module Seqs {
  lemma SplitAt<T>(ys: seq<T>, x: T) returns (i: nat)
    requires x in ys
    ensures i < |ys| && ys[i] == x
    ensures ys == ys[..i] + [x] + ys[i + 1..]
    ensures multiset(ys[..i] + ys[i + 1..]) == multiset(ys) - multiset{x}
  {
    i :| 0 <= i < |ys| && ys[i] == x;
    assert ys == ys[..i] + [x] + ys[i + 1..];
  }

  lemma TailMultiset<T>(xs: seq<T>)
    requires xs != []
    ensures multiset(xs[1..]) == multiset(xs) - multiset{xs[0]}
  {
    assert xs == [xs[0]] + xs[1..];
  }

  /** Whatever is in a part of a multiset is in the whole. */
  lemma SameMembers<T>(xs: seq<T>, ys: seq<T>, zs: seq<T>)
    requires multiset(xs) == multiset(ys) + multiset(zs)
    ensures forall o :: o in xs <==> o in ys || o in zs
  {
    forall o ensures o in xs <==> o in ys || o in zs {
      assert o in xs <==> o in multiset(xs);
      assert o in ys <==> o in multiset(ys);
      assert o in zs <==> o in multiset(zs);
    }
  }

  /** Two removals in a row are one. */
  lemma ChainRemovals<T>(a: multiset<T>, b: multiset<T>, c: multiset<T>, p: seq<T>, q: seq<T>)
    requires b + multiset(p) == a && c + multiset(q) == b
    ensures c + multiset(p + q) == a
  {
    assert multiset(p + q) == multiset(p) + multiset(q);
  }
}
