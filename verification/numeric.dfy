/** Real-number stand-ins for the JavaScript numeric helpers the risk engine
    uses: Math.min / Math.max, the [0,1] clamp, Math.round and the
    one-decimal rounding of Number(x.toFixed(1)). */
module Numeric {

  function Min(a: real, b: real): (r: real)
    ensures r <= a && r <= b
    ensures r == a || r == b
  {
    if a <= b then a else b
  }

  function Max(a: real, b: real): (r: real)
    ensures r >= a && r >= b
    ensures r == a || r == b
  {
    if a >= b then a else b
  }

  /** Math.max(0, Math.min(1, x)): the value nearest to x inside [0,1]. */
  function Clamp01(x: real): (r: real)
    ensures 0.0 <= r <= 1.0
    ensures 0.0 <= x <= 1.0 ==> r == x
    ensures x < 0.0 ==> r == 0.0
    ensures x > 1.0 ==> r == 1.0
  {
    Max(0.0, Min(1.0, x))
  }

  lemma Clamp01Monotone(x: real, y: real)
    requires x <= y
    ensures Clamp01(x) <= Clamp01(y)
  {
  }

  function Square(m: real): real
  {
    m * m
  }

  lemma SquarePositive(m: real)
    requires m > 0.0
    ensures Square(m) > 0.0
  {
    calc {
      Square(m);
    ==
      m * m;
    >
      0.0;
    }
  }

  /** Dividing by a positive number keeps the sign of the dividend. */
  lemma QuotientSign(w: real, d: real)
    requires d > 0.0
    ensures w / d * d == w
    ensures w / d > 0.0 <==> w > 0.0
    ensures w / d == 0.0 <==> w == 0.0
  {
    var q := w / d;
    assert q * d == w;
    if q > 0.0 {
      assert q * d > 0.0 * d;
    } else if q < 0.0 {
      assert (-q) * d > 0.0 * d;
    }
  }

  /** Math.round: the nearest integer, ties going towards +infinity. */
  function Round(x: real): (r: int)
    ensures x - 0.5 < r as real <= x + 0.5
  {
    (x + 0.5).Floor
  }

  /** The nearest integer is unique, so Round is the only integer within
      half a unit (ties resolved upwards). */
  lemma RoundUnique(x: real, n: int)
    requires x - 0.5 < n as real <= x + 0.5
    ensures Round(x) == n
  {
  }

  lemma RoundMonotone(x: real, y: real)
    requires x <= y
    ensures Round(x) <= Round(y)
  {
  }

  /** Rounding a value that lies between two integers stays between them. */
  lemma RoundWithin(x: real, lo: int, hi: int)
    requires lo as real <= x <= hi as real
    ensures lo <= Round(x) <= hi
  {
    RoundMonotone(lo as real, x);
    RoundMonotone(x, hi as real);
    RoundUnique(lo as real, lo);
    RoundUnique(hi as real, hi);
  }

  /** Number(x.toFixed(1)) on an exact real: the nearest multiple of 0.1,
      ties going away from zero (toFixed rounds the magnitude, picking the
      larger candidate on a tie, and then restores the sign). */
  function ToFixed1(x: real): (r: real)
    ensures x >= 0.0 ==> x - 0.05 < r <= x + 0.05
    ensures x <= 0.0 ==> x - 0.05 <= r < x + 0.05
    ensures (r * 10.0).Floor as real == r * 10.0
    ensures x >= 0.0 ==> r >= 0.0
    ensures x <= 0.0 ==> r <= 0.0
  {
    if x >= 0.0 then
      var n := Round(10.0 * x);
      assert 10.0 * x - 0.5 < n as real <= 10.0 * x + 0.5;
      assert n as real / 10.0 * 10.0 == n as real;
      n as real / 10.0
    else
      var n := Round(-10.0 * x);
      assert -10.0 * x - 0.5 < n as real <= -10.0 * x + 0.5;
      assert -(n as real / 10.0) * 10.0 == (-n) as real;
      -(n as real / 10.0)
  }

  /** One-decimal rounding is symmetric about zero. */
  lemma ToFixed1Odd(x: real)
    ensures ToFixed1(-x) == -ToFixed1(x)
  {
  }
}
