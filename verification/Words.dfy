/** Machine words: what the source's unsigned and signed 64-bit and unsigned 32-bit integers do. */
module Words {
  const TWO_32: int := 0x1_0000_0000
  const TWO_63: int := 0x8000_0000_0000_0000
  const TWO_64: int := 0x1_0000_0000_0000_0000

  /** The value a uint64 takes. */
  function Wrap64(x: int): (r: int)
    ensures 0 <= r < TWO_64
    ensures 0 <= x < TWO_64 <==> r == x
  {
    x % TWO_64
  }

  /** A uint64 read as an int64. */
  function Signed64(x: int): int {
    if x < TWO_63 then x else x - TWO_64
  }

  /** Unsigned 64-bit subtraction: wraps around below zero. */
  function Sub64(a: int, b: int): nat {
    if b <= a then a - b else (a - b) % TWO_64
  }

  function Min(a: nat, b: nat): nat { if a < b then a else b }

  function Max(a: nat, b: nat): nat { if a < b then b else a }

  /** Wrapping early or late makes no difference. */
  lemma WrapAdd(a: int, d: int)
    ensures Wrap64(Wrap64(a) + d) == Wrap64(a + d)
  {
    var q := a / TWO_64;
    assert a == q * TWO_64 + Wrap64(a);
    WrapShift(Wrap64(a) + d, q);
  }

  lemma WrapShift(a: int, q: int)
    ensures Wrap64(a + q * TWO_64) == Wrap64(a)
  {
  }

  /** Reading a word as signed changes nothing modulo 2^64. */
  lemma WrapSigned(a: int, d: int)
    ensures Wrap64(Signed64(a) + d) == Wrap64(a + d)
  {
    WrapShift(a + d, -1);
  }
}
