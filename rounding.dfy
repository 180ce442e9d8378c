/**
 * Rounding to two decimal places, as the reporter does with `round(x, 2)`
 * for every score it prints and stores.
 *
 * The model works on exact reals: a value is rounded to the nearest
 * hundredth, and a value exactly half-way between two hundredths goes to the
 * even one (the tie rule of Python's `round`).
 */
module Rounding {

  /** A real number that is a whole number of hundredths. */
  predicate IsHundredths(x: real) {
    (x * 100.0).Floor as real == x * 100.0
  }

  /** The integer nearest to `y`; a tie goes to the even neighbour. */
  function RoundHalfEven(y: real): (n: int)
    ensures -0.5 <= n as real - y <= 0.5
    ensures n as real - y == 0.5 || y - n as real == 0.5 ==> n % 2 == 0
  {
    var f := y.Floor;
    var frac := y - f as real;
    if frac < 0.5 then f
    else if frac > 0.5 then f + 1
    else if f % 2 == 0 then f
    else f + 1
  }

  /** `round(x, 2)`: the nearest number of hundredths to `x`. */
  function Round2(x: real): (r: real)
    ensures -0.005 <= r - x <= 0.005
    ensures IsHundredths(r)
  {
    var n := RoundHalfEven(x * 100.0);
    var r := n as real / 100.0;
    assert r * 100.0 == n as real;
    assert (r * 100.0).Floor == n;
    assert r - x == (n as real - x * 100.0) / 100.0;
    r
  }

  lemma RoundHalfEvenMonotone(y: real, z: real)
    requires y <= z
    ensures RoundHalfEven(y) <= RoundHalfEven(z)
  {
    var fy, fz := y.Floor, z.Floor;
    if fy == fz {
      assert y - fy as real <= z - fz as real;
    } else {
      assert fy + 1 <= fz;
    }
  }

  /** Rounding never reverses the order of two scores. */
  lemma Round2Monotone(x: real, y: real)
    requires x <= y
    ensures Round2(x) <= Round2(y)
  {
    RoundHalfEvenMonotone(x * 100.0, y * 100.0);
  }

  /** A number that already has at most two decimals is left unchanged. */
  lemma Round2Fixes(n: int)
    ensures Round2(n as real / 100.0) == n as real / 100.0
  {
    var y := (n as real / 100.0) * 100.0;
    assert y == n as real;
    assert y.Floor == n;
  }

  /** Rounding twice is rounding once. */
  lemma Round2Idempotent(x: real)
    ensures Round2(Round2(x)) == Round2(x)
  {
    var r := Round2(x);
    var n := (r * 100.0).Floor;
    assert r == n as real / 100.0;
    Round2Fixes(n);
  }

  /** A value in the score range [0, 100] stays in it after rounding. */
  lemma Round2KeepsScoreRange(x: real)
    requires 0.0 <= x <= 100.0
    ensures 0.0 <= Round2(x) <= 100.0
  {
    Round2Monotone(0.0, x);
    Round2Monotone(x, 100.0);
    Round2Fixes(0);
    Round2Fixes(10000);
  }
}
