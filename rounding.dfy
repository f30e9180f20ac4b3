/** Decimal quantization as the margin code uses it.

    Python's `Decimal.quantize` is modelled on exact reals: money is rounded to
    cents and rates to millionths.  The margin engine asks for ROUND_HALF_UP
    (ties away from zero); the older calculation library calls `quantize`
    without a rounding mode and so gets the context default, ROUND_HALF_EVEN. */
module Rounding {

  /** `x` has at most two decimal places (a `Numeric(_, 2)` value). */
  predicate IsCents(x: real) {
    (x * 100.0).Floor as real == x * 100.0
  }

  /** `x` has at most six decimal places (a `Numeric(_, 6)` value). */
  predicate IsMicros(x: real) {
    (x * 1000000.0).Floor as real == x * 1000000.0
  }

  /** Nearest integer, ties away from zero (ROUND_HALF_UP). */
  function RoundHalfUp(y: real): (k: int)
    ensures y >= 0.0 ==> y - 0.5 < k as real <= y + 0.5
    ensures y < 0.0 ==> y - 0.5 <= k as real < y + 0.5
  {
    if y >= 0.0 then (y + 0.5).Floor else -((-y + 0.5).Floor)
  }

  /** Nearest integer, ties to the even neighbour (ROUND_HALF_EVEN). */
  function RoundHalfEven(y: real): (k: int)
    ensures y - 0.5 <= k as real <= y + 0.5
    ensures (k as real == y - 0.5 || k as real == y + 0.5) ==> k % 2 == 0
  {
    var f := y.Floor;
    var d := y - f as real;
    if d < 0.5 then f
    else if d > 0.5 then f + 1
    else if f % 2 == 0 then f
    else f + 1
  }

  /** `_q2`: quantize to 0.01 with ROUND_HALF_UP. */
  function Q2(x: real): (r: real)
    ensures IsCents(r)
    ensures x >= 0.0 ==> x - 0.005 < r <= x + 0.005
    ensures x < 0.0 ==> x - 0.005 <= r < x + 0.005
  {
    var k := RoundHalfUp(x * 100.0);
    var r := k as real / 100.0;
    assert r * 100.0 == k as real;
    IntegerFloor(k);
    r
  }

  /** `_q2(x * y)`: an amount times a rate (or a count times a price),
      rounded to cents. */
  function Q2Mul(x: real, y: real): (r: real)
    ensures IsCents(r)
    ensures x * y >= 0.0 ==> x * y - 0.005 < r <= x * y + 0.005
  {
    Q2(x * y)
  }

  /** `_q6`: quantize to 0.000001 with ROUND_HALF_UP. */
  function Q6(x: real): (r: real)
    ensures IsMicros(r)
    ensures x >= 0.0 ==> x - 0.0000005 < r <= x + 0.0000005
    ensures x < 0.0 ==> x - 0.0000005 <= r < x + 0.0000005
  {
    var k := RoundHalfUp(x * 1000000.0);
    var r := k as real / 1000000.0;
    assert r * 1000000.0 == k as real;
    IntegerFloor(k);
    r
  }

  /** `quantize(Decimal("0.01"))` under the default context: ROUND_HALF_EVEN. */
  function QEven2(x: real): (r: real)
    ensures IsCents(r)
    ensures x - 0.005 <= r <= x + 0.005
  {
    var k := RoundHalfEven(x * 100.0);
    var r := k as real / 100.0;
    assert r * 100.0 == k as real;
    IntegerFloor(k);
    r
  }

  lemma {:induction false} IntegerFloor(k: int)
    ensures (k as real).Floor == k
  {
  }

  /** Rounding a value that already has two places changes nothing. */
  lemma {:induction false} Q2OfCents(x: real)
    requires IsCents(x)
    ensures Q2(x) == x
  {
    var k := (x * 100.0).Floor;
    assert x * 100.0 == k as real;
    if x >= 0.0 {
      assert (k as real + 0.5).Floor == k;
    } else {
      assert (-(k as real) + 0.5).Floor == -k;
    }
  }

  /** Same for six places. */
  lemma {:induction false} Q6OfMicros(x: real)
    requires IsMicros(x)
    ensures Q6(x) == x
  {
    var k := (x * 1000000.0).Floor;
    assert x * 1000000.0 == k as real;
    if x >= 0.0 {
      assert (k as real + 0.5).Floor == k;
    } else {
      assert (-(k as real) + 0.5).Floor == -k;
    }
  }

  lemma {:induction false} QEven2OfCents(x: real)
    requires IsCents(x)
    ensures QEven2(x) == x
  {
    var k := (x * 100.0).Floor;
    assert x * 100.0 == k as real;
  }

  lemma {:induction false} RoundHalfUpMonotone(x: real, y: real)
    requires x <= y
    ensures RoundHalfUp(x) <= RoundHalfUp(y)
  {
  }

  /** Rounding never reverses the order of two amounts. */
  lemma {:induction false} Q2Monotone(x: real, y: real)
    requires x <= y
    ensures Q2(x) <= Q2(y)
  {
    RoundHalfUpMonotone(x * 100.0, y * 100.0);
  }

  lemma {:induction false} Q6Monotone(x: real, y: real)
    requires x <= y
    ensures Q6(x) <= Q6(y)
  {
    RoundHalfUpMonotone(x * 1000000.0, y * 1000000.0);
  }

  /** Half-up rounding is symmetric about zero (ties go away from zero on both sides). */
  lemma {:induction false} Q2Negate(x: real)
    ensures Q2(-x) == -Q2(x)
  {
    if x > 0.0 {
      assert -x * 100.0 == -(x * 100.0);
    } else if x < 0.0 {
      assert -(-x * 100.0) == x * 100.0;
    }
  }

  /** Sums and differences of two-place amounts keep two places. */
  lemma {:induction false} CentsClosed(a: real, b: real)
    requires IsCents(a) && IsCents(b)
    ensures IsCents(a + b) && IsCents(a - b) && IsCents(-a)
  {
    var m := (a * 100.0).Floor;
    var n := (b * 100.0).Floor;
    assert (a + b) * 100.0 == (m + n) as real;
    assert (a - b) * 100.0 == (m - n) as real;
    assert -a * 100.0 == (-m) as real;
    IntegerFloor(m + n);
    IntegerFloor(m - n);
    IntegerFloor(-m);
  }

  /** Cents are in particular micros. */
  lemma {:induction false} CentsAreMicros(a: real)
    requires IsCents(a)
    ensures IsMicros(a)
  {
    var m := (a * 100.0).Floor;
    assert a * 1000000.0 == (m * 10000) as real;
    IntegerFloor(m * 10000);
  }

  /** Off a tie the two rounding modes agree; on a tie they can differ. */
  lemma {:induction false} HalfEvenAgreesOffTies(x: real)
    requires x * 100.0 - (x * 100.0).Floor as real != 0.5
    ensures QEven2(x) == Q2(x)
  {
    var y := x * 100.0;
    var e := RoundHalfEven(y);
    var u := RoundHalfUp(y);
    var f := y.Floor;
    if y >= 0.0 {
      assert (y + 0.5).Floor == (if y - f as real < 0.5 then f else f + 1);
    } else {
      assert (-y + 0.5).Floor == (if y - f as real > 0.5 then -f - 1 else -f);
    }
    assert e == u;
  }

  /** A tie where ROUND_HALF_EVEN and ROUND_HALF_UP disagree: 0.125 -> 0.12 vs 0.13. */
  lemma {:induction false} HalfEvenDiffersOnTie()
    ensures QEven2(0.125) == 0.12 && Q2(0.125) == 0.13
  {
    assert (12.5).Floor == 12;
    assert (13.0).Floor == 13;
  }
}
