/**
 Go's 64-bit integers: values, and what arithmetic leaves of an exact result.
 */
module Machine {

  const TWO_62: int := 0x4000_0000_0000_0000
  const TWO_63: int := 0x8000_0000_0000_0000
  const TWO_64: int := 0x1_0000_0000_0000_0000

  type Int64 = x: int | -TWO_63 <= x < TWO_63

  function Wrap(x: int): Int64 { (x + TWO_63) % TWO_64 - TWO_63 }

  /** What is left of a result: the value in the range of 64 bits that differs from it by a multiple of 2^64. */
  lemma WrapIsCongruent(x: int)
    ensures -0x8000_0000_0000_0000 <= Wrap(x) < 0x8000_0000_0000_0000
    ensures (x - Wrap(x)) % 0x1_0000_0000_0000_0000 == 0
  {
  }

  /** Arithmetic is exact as long as the result is in range, and only then. */
  lemma WrapIsExact(x: int)
    ensures Wrap(x) == x <==> -TWO_63 <= x < TWO_63
  {
  }
}
