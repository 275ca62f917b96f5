/**
 * The Java numeric behaviour the rebalancing arithmetic depends on:
 * 32-bit `int` arithmetic, `Math.round(double)`, the narrowing cast
 * `(int)` from `long`, and `Math.abs(double)`.
 * `double` itself is modelled as exact `real` arithmetic.
 */
module JavaNumerics {

  const TwoTo32: int := 0x1_0000_0000
  const MinInt32: int := -0x8000_0000
  const MaxInt32: int := 0x7FFF_FFFF
  const MinInt64: int := -0x8000_0000_0000_0000
  const MaxInt64: int := 0x7FFF_FFFF_FFFF_FFFF

  /** A Java `int`. */
  newtype Int32 = x: int | -0x8000_0000 <= x < 0x8000_0000

  /** Two integers that Java's 32-bit arithmetic cannot tell apart. */
  predicate Congruent32(x: int, y: int) {
    (x - y) % TwoTo32 == 0
  }

  /**
   * Keeps the low 32 bits of `x` in two's complement: the result of Java `int`
   * addition and subtraction, and of the narrowing cast `(int)` from `long`.
   */
  function Wrap32(x: int): (r: Int32)
    ensures Congruent32(x, r as int)
    ensures MinInt32 <= x <= MaxInt32 ==> r as int == x
  {
    var k := (x + 0x8000_0000) / TwoTo32;
    var r := x - k * TwoTo32;
    MultipleIsCongruent(x, r, k);
    r as Int32
  }

  /** Numbers a whole multiple of 2^32 apart are congruent. */
  lemma MultipleIsCongruent(x: int, y: int, k: int)
    requires x - y == k * TwoTo32
    ensures Congruent32(x, y)
  {
  }

  /** Two `int` values that agree modulo 2^32 are the same `int`. */
  lemma Int32Unique(a: Int32, b: Int32)
    requires Congruent32(a as int, b as int)
    ensures a == b
  {
  }

  /**
   * Adding back in Java `int` arithmetic what Java `int` subtraction took away
   * returns to the start: `current + (target - current) == target`, wrap-around
   * and all; and the difference of two distinct `int`s is never 0.
   */
  lemma WrapDifference(target: Int32, current: Int32)
    ensures Wrap32(current as int + Wrap32(target as int - current as int) as int) == target
    ensures target != current ==> Wrap32(target as int - current as int) != 0
  {
    var d := Wrap32(target as int - current as int);
    var s := Wrap32(current as int + d as int);
    var k1 := (target as int - current as int - d as int) / TwoTo32;
    var k2 := (current as int + d as int - s as int) / TwoTo32;
    assert target as int - current as int - d as int == k1 * TwoTo32;
    assert current as int + d as int - s as int == k2 * TwoTo32;
    MultipleIsCongruent(target as int, s as int, k1 + k2);
    Int32Unique(target, s);
  }

  /**
   * The closest integer to `x`, ties rounding towards positive infinity:
   * `floor(x + 1/2)`.
   */
  function RoundHalfUp(x: real): (r: int)
    ensures x - 0.5 < r as real <= x + 0.5
  {
    (x + 0.5).Floor
  }

  /**
   * Java's `Math.round(double)`: the closest `long` to `x`, ties towards
   * positive infinity, saturating at the bounds of `long`.
   */
  function MathRound(x: real): (r: int)
    ensures MinInt64 <= r <= MaxInt64
    ensures MinInt64 <= RoundHalfUp(x) <= MaxInt64 ==> r == RoundHalfUp(x)
    ensures RoundHalfUp(x) > MaxInt64 ==> r == MaxInt64
    ensures RoundHalfUp(x) < MinInt64 ==> r == MinInt64
  {
    var n := RoundHalfUp(x);
    if n > MaxInt64 then MaxInt64 else if n < MinInt64 then MinInt64 else n
  }

  /** Java's `Math.abs(double)`. */
  function Abs(x: real): (r: real)
    ensures r >= 0.0
    ensures r == x || r == -x
  {
    if x < 0.0 then -x else x
  }

  /** Multiplying and then dividing by the same non-zero factor cancels. */
  lemma MulDiv(a: real, b: real)
    ensures b != 0.0 ==> (a * b) / b == a && (b * a) / b == a
  {
  }

  /** Dividing and then multiplying by the same non-zero factor cancels. */
  lemma DivMul(a: real, b: real)
    ensures b != 0.0 ==> (a / b) * b == a
  {
  }
}
