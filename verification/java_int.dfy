/**
 Java `int` operators whose meaning differs from Dafny's on `int`.
 Overflow is not modelled: values are unbounded integers.
 */
module JavaInt {

  /** Java's `a / 2`: the quotient is truncated toward zero, so the
      remainder has the sign of the dividend (Dafny's `/` is Euclidean). */
  function Half(a: int): (q: int)
    ensures a >= 0 ==> 0 <= a - 2 * q <= 1
    ensures a < 0 ==> -1 <= a - 2 * q <= 0
  {
    if a >= 0 then a / 2 else -((-a) / 2)
  }

  /** `Math.min` on two ints. */
  function Min(a: int, b: int): (m: int)
    ensures m <= a && m <= b
    ensures m == a || m == b
  {
    if a <= b then a else b
  }

  /** `Math.max` on two ints. */
  function Max(a: int, b: int): (m: int)
    ensures m >= a && m >= b
    ensures m == a || m == b
  {
    if a >= b then a else b
  }
}
