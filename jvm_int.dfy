/** Kotlin's fixed-width integers: `Long` (64-bit) and `Int` (32-bit) with
    two's-complement wrap-around on `+` and `-`, and `coerceAtLeast`. */
module JvmInt {

  const TWO_64: int := 0x1_0000_0000_0000_0000
  const TWO_32: int := 0x1_0000_0000
  const LONG_MIN: int := -0x8000_0000_0000_0000
  const LONG_MAX: int := 0x7FFF_FFFF_FFFF_FFFF
  const INT_MIN: int := -0x8000_0000
  const INT_MAX: int := 0x7FFF_FFFF

  type Long = x: int | -0x8000_0000_0000_0000 <= x <= 0x7FFF_FFFF_FFFF_FFFF
  type Int = x: int | -0x8000_0000 <= x <= 0x7FFF_FFFF

  predicate InLong(x: int) { LONG_MIN <= x <= LONG_MAX }
  predicate InInt(x: int) { INT_MIN <= x <= INT_MAX }

  /** Two's-complement wrap of a value that is off the `Long` range by at
      most one period, as the sum or difference of two `Long`s always is. */
  function WrapLong(x: int): (r: Long)
    requires -TWO_64 <= x < TWO_64
    ensures InLong(x) ==> r == x
    ensures r == x || r == x - TWO_64 || r == x + TWO_64
  {
    if x > LONG_MAX then x - TWO_64
    else if x < LONG_MIN then x + TWO_64
    else x
  }

  /** Two's-complement wrap of a value that is off the `Int` range by at
      most one period. */
  function WrapInt(x: int): (r: Int)
    requires -TWO_32 <= x < TWO_32
    ensures InInt(x) ==> r == x
    ensures r == x || r == x - TWO_32 || r == x + TWO_32
  {
    if x > INT_MAX then x - TWO_32
    else if x < INT_MIN then x + TWO_32
    else x
  }

  /** Kotlin `a + b` on `Long`. */
  function LongAdd(a: Long, b: Long): (r: Long)
    ensures InLong(a + b) ==> r == a + b
    ensures a + b > LONG_MAX ==> r == a + b - TWO_64
    ensures a + b < LONG_MIN ==> r == a + b + TWO_64
  {
    WrapLong(a + b)
  }

  /** Kotlin `a - b` on `Long`. */
  function LongSub(a: Long, b: Long): (r: Long)
    ensures InLong(a - b) ==> r == a - b
    ensures a - b > LONG_MAX ==> r == a - b - TWO_64
    ensures a - b < LONG_MIN ==> r == a - b + TWO_64
  {
    WrapLong(a - b)
  }

  /** Kotlin `a + b` on `Int`. */
  function IntAdd(a: Int, b: Int): (r: Int)
    ensures InInt(a + b) ==> r == a + b
    ensures a + b > INT_MAX ==> r == a + b - TWO_32
    ensures a + b < INT_MIN ==> r == a + b + TWO_32
  {
    WrapInt(a + b)
  }

  /** Kotlin `a - b` on `Int`. */
  function IntSub(a: Int, b: Int): (r: Int)
    ensures InInt(a - b) ==> r == a - b
    ensures a - b > INT_MAX ==> r == a - b - TWO_32
    ensures a - b < INT_MIN ==> r == a - b + TWO_32
  {
    WrapInt(a - b)
  }

  /** Kotlin `x.coerceAtLeast(0)`, equally `max(0, x)`. */
  function AtLeastZero(x: int): (r: nat)
    ensures r >= x
    ensures x >= 0 ==> r == x
    ensures r == 0 <==> x <= 0
  {
    if x < 0 then 0 else x
  }
}
