/**
 * C# integer semantics on Dafny's unbounded integers: the 32-bit ranges,
 * unchecked (wrapping) conversion, and `/` and `%` truncating toward zero.
 */
module Ints {

  const TWO_32: int := 0x1_0000_0000
  const MIN_INT32: int := -0x8000_0000
  const MAX_INT32: int := 0x7FFF_FFFF

  /** C# `int`. */
  type Int32 = x: int | -0x8000_0000 <= x <= 0x7FFF_FFFF
  /** C# `uint`. */
  type UInt32 = x: int | 0 <= x < 0x1_0000_0000
  /** C# `byte`. */
  type Byte = x: int | 0 <= x < 0x100

  /** The `int` that unchecked C# arithmetic leaves for the mathematical value `x`. */
  function WrapInt32(x: int): (r: Int32)
    ensures (r - x) % TWO_32 == 0
    ensures MIN_INT32 <= x <= MAX_INT32 ==> r == x
  {
    var m := x % TWO_32;
    if m > MAX_INT32 then m - TWO_32 else m
  }

  /** The `uint` that an unchecked C# conversion or sum leaves for `x`. */
  function WrapUInt32(x: int): (r: UInt32)
    ensures (r - x) % TWO_32 == 0
    ensures 0 <= x < TWO_32 ==> r == x
  {
    x % TWO_32
  }

  /** C#'s integer `/` for a positive divisor: the quotient truncated toward zero. */
  function TruncDiv(a: int, b: int): (q: int)
    requires b > 0
    ensures a >= 0 ==> q >= 0 && a - b < q * b <= a
    ensures a < 0 ==> q <= 0 && a <= q * b < a + b
  {
    if a >= 0 then
      DivBounds(a, b);
      a / b
    else
      DivBounds(-a, b);
      -((-a) / b)
  }

  /** Euclidean division of a natural number: the quotient times the divisor is at most one divisor short. */
  lemma DivBounds(a: nat, b: int)
    requires b > 0
    ensures a / b >= 0
    ensures a - b < (a / b) * b <= a
  {
    assert a == (a / b) * b + a % b;
  }

  /** C#'s integer `%` for a positive divisor: the remainder takes the sign of `a`. */
  function TruncRem(a: int, b: int): (r: int)
    requires b > 0
    ensures a == TruncDiv(a, b) * b + r
    ensures a >= 0 ==> 0 <= r < b
    ensures a < 0 ==> -b < r <= 0
  {
    a - TruncDiv(a, b) * b
  }
}
