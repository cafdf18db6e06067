/** Wrap-around of 64-bit signed arithmetic. */
module Int64 {

  const LIMIT := 0x8000_0000_0000_0000
  const MODULUS := 0x1_0000_0000_0000_0000

  /** The value an int64 holds after an overflowing operation. */
  function Wrap(x: int): int {
    (x + LIMIT) % MODULUS - LIMIT
  }

  lemma WrapResidue(x: int)
    requires x >= 0
    ensures x < LIMIT ==> Wrap(x) == x
    ensures var r := x % MODULUS; Wrap(x) == if r < LIMIT then r else r - MODULUS
  {
  }
}
