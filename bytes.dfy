/** Unsigned bytes as the register bus sees them, and powers of two. */
module Bytes {

  /** One register address or one data byte on the bus. */
  type Byte = x: int | 0 <= x < 256

  function Pow2(n: nat): (p: nat)
    ensures p >= 1
  {
    if n == 0 then 1 else 2 * Pow2(n - 1)
  }
}
