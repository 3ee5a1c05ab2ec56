/** Go's 64-bit integers. */
module Ints {
  const MAX_INT64 := 0x7FFF_FFFF_FFFF_FFFF
  const MIN_INT64 := -0x8000_0000_0000_0000
  const TWO63 := 0x8000_0000_0000_0000
  const TWO64 := 0x1_0000_0000_0000_0000

  /** int64 arithmetic, and the conversion to int64, wrap around. */
  function Wrap(x: int): (y: int)
    ensures MIN_INT64 <= y <= MAX_INT64
    ensures MIN_INT64 <= x <= MAX_INT64 <==> y == x
    ensures exists k: int :: y == x + k * 0x1_0000_0000_0000_0000
  {
    assert (x - MIN_INT64) % TWO64 + MIN_INT64 == x + -((x - MIN_INT64) / TWO64) * 0x1_0000_0000_0000_0000;
    (x - MIN_INT64) % TWO64 + MIN_INT64
  }

  /** uint64(i) of an int64. */
  function ToUint(i: int): nat
    requires MIN_INT64 <= i <= MAX_INT64
  {
    if i >= 0 then i else i + TWO64
  }
}
