/**
 * Java's numeric conversions, written out over unbounded integers and reals:
 * the `(long)` and `(int)` casts of a `double` (truncation toward zero, then
 * saturation at the type's range) and integer division (truncation toward zero).
 */
module JavaArith {

  const LongMin: int := -0x8000_0000_0000_0000
  const LongMax: int := 0x7FFF_FFFF_FFFF_FFFF
  const IntMin: int := -0x8000_0000
  const IntMax: int := 0x7FFF_FFFF

  /** Drops the fractional part, rounding toward zero. */
  function TruncateTowardZero(x: real): (r: int)
    ensures x >= 0.0 ==> r as real <= x < r as real + 1.0
    ensures x < 0.0 ==> r as real - 1.0 < x <= r as real
  {
    if x >= 0.0 then x.Floor else -((-x).Floor)
  }

  /** Clamps an integer into [lo, hi]. */
  function Saturate(n: int, lo: int, hi: int): (r: int)
    requires lo <= hi
    ensures lo <= r <= hi
    ensures lo <= n <= hi ==> r == n
  {
    if n < lo then lo else if n > hi then hi else n
  }

  /** Java's `(long) x` for a finite double `x`. */
  function LongCast(x: real): (r: int)
    ensures LongMin <= r <= LongMax
    ensures 0.0 <= x < LongMax as real ==> r == x.Floor
    ensures x.Floor as real == x && LongMin as real <= x <= LongMax as real ==> r == x.Floor
  {
    Saturate(TruncateTowardZero(x), LongMin, LongMax)
  }

  /** Java's `(int) x` for a finite double `x`. */
  function IntCast(x: real): (r: int)
    ensures IntMin <= r <= IntMax
    ensures 0.0 <= x < IntMax as real ==> r == x.Floor
    ensures x.Floor as real == x && IntMin as real <= x <= IntMax as real ==> r == x.Floor
  {
    Saturate(TruncateTowardZero(x), IntMin, IntMax)
  }

  /** Java's integer division `a / b`, which truncates toward zero. */
  function JavaDiv(a: int, b: int): (q: int)
    requires b != 0
    ensures a >= 0 && b > 0 ==> q == a / b
    ensures a < 0 && b > 0 ==> q == -((-a) / b)
  {
    var magnitude := (if a < 0 then -a else a) / (if b < 0 then -b else b);
    if (a < 0) != (b < 0) then -magnitude else magnitude
  }
}
