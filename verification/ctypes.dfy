/** The few C integer rules the model depends on: the range of `int`, the
    conversion of an `int` to `unsigned` in a mixed comparison, and
    division that truncates toward zero. */
module CTypes {

  const INT32_MIN: int := -0x8000_0000
  const INT32_MAX: int := 0x7fff_ffff
  const U32_MODULUS: int := 0x1_0000_0000

  type int32 = x: int | INT32_MIN <= x <= INT32_MAX

  /** The value an `int` takes when C converts it to `unsigned int`, as it
      does when an `int` is compared with a `u32`. */
  function ToUnsigned(x: int32): (u: nat)
    ensures u < U32_MODULUS
    ensures 0 <= x ==> u == x
    ensures x < 0 ==> u > INT32_MAX
  {
    if x < 0 then x + U32_MODULUS else x
  }

  /** `a / b` as C computes it for a positive divisor: the quotient is
      truncated toward zero, so the remainder takes the sign of `a`. */
  function TruncDiv(a: int, b: int): (q: int)
    requires b > 0
    ensures 0 <= a ==> 0 <= a - q * b < b
    ensures a < 0 ==> -b < a - q * b <= 0
  {
    if a >= 0 then a / b else -((-a) / b)
  }
}
