/** JVM integer and float-to-integer conversions, written out because Dafny's
    `int` is unbounded and its `/` and `%` are Euclidean. */
module Ints {

  const INT32_MIN: int := -0x8000_0000
  const INT32_MAX: int := 0x7FFF_FFFF
  const TWO_POW_32: int := 0x1_0000_0000
  const INT64_MIN: int := -0x8000_0000_0000_0000
  const INT64_MAX: int := 0x7FFF_FFFF_FFFF_FFFF
  const TWO_POW_64: int := 0x1_0000_0000_0000_0000

  function Abs(x: int): nat { if x < 0 then -x else x }

  function Max(a: int, b: int): int { if a < b then b else a }

  function Min(a: int, b: int): int { if a < b then a else b }

  function MaxReal(a: real, b: real): real { if a < b then b else a }

  /** Kotlin/Java `a / b` for a positive divisor: the quotient is rounded toward zero. */
  function TruncDiv(a: int, b: int): (q: int)
    requires b > 0
    ensures Abs(q) == Abs(a) / b
    ensures q == 0 || ((q > 0) == (a > 0))
    ensures a >= 0 ==> q == a / b
  {
    if a >= 0 then a / b else -((-a) / b)
  }

  /** Kotlin's `Int` multiplication and `Long.toInt()`: keep the low 32 bits, two's complement. */
  function ToInt32(x: int): (r: int)
    ensures INT32_MIN <= r <= INT32_MAX
    ensures (x - r) % TWO_POW_32 == 0
    ensures INT32_MIN <= x <= INT32_MAX ==> r == x
  {
    (x - INT32_MIN) % TWO_POW_32 + INT32_MIN
  }

  /** Kotlin's `Long` subtraction: keep the low 64 bits, two's complement. */
  function ToInt64(x: int): (r: int)
    ensures INT64_MIN <= r <= INT64_MAX
    ensures (x - r) % TWO_POW_64 == 0
    ensures INT64_MIN <= x <= INT64_MAX ==> r == x
  {
    (x - INT64_MIN) % TWO_POW_64 + INT64_MIN
  }

  /** Truncation of a real toward zero, as `Float.toInt()` does before saturation. */
  function TruncReal(x: real): (r: int)
    ensures Abs(r) as real <= (if x < 0.0 then -x else x) < Abs(r) as real + 1.0
    ensures r == 0 || ((r > 0) == (x > 0.0))
  {
    if x >= 0.0 then x.Floor else -((-x).Floor)
  }

  /** `Float.toInt()`: rounds toward zero and saturates at the 32-bit bounds (NaN is not modelled). */
  function FloatToInt(x: real): (r: int)
    ensures INT32_MIN <= r <= INT32_MAX
    ensures INT32_MIN <= TruncReal(x) <= INT32_MAX ==> r == TruncReal(x)
    ensures 0.0 <= x ==> 0 <= r
  {
    var t := TruncReal(x);
    if t < INT32_MIN then INT32_MIN else if t > INT32_MAX then INT32_MAX else t
  }

  /** `roundToInt()` (Math.round): the nearest integer, halves rounded up, saturated. */
  function RoundReal(x: real): (r: int)
    ensures INT32_MIN <= r <= INT32_MAX
    ensures INT32_MIN <= (x + 0.5).Floor <= INT32_MAX ==>
              r as real - 0.5 <= x < r as real + 0.5
  {
    var f := (x + 0.5).Floor;
    if f < INT32_MIN then INT32_MIN else if f > INT32_MAX then INT32_MAX else f
  }

  lemma MulAtLeast(d: int, k: int)
    requires d > 0 && k >= 1
    ensures d * k >= d
  {
  }

  /** Euclidean division is determined by its quotient-remainder decomposition. */
  lemma DivModUnique(n: int, d: int, q: int, r: int)
    requires d > 0 && n == d * q + r && 0 <= r < d
    ensures n / d == q && n % d == r
  {
    var q0 := n / d;
    var r0 := n % d;
    assert n == d * q0 + r0;
    assert d * (q - q0) == r0 - r;
    if q > q0 {
      MulAtLeast(d, q - q0);
    } else if q < q0 {
      MulAtLeast(d, q0 - q);
    }
  }
}
