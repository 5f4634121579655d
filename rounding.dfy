/** `Math.Round(d, 2)` on decimals, whose default midpoint rule is
    round-half-to-even ("banker's rounding"). */
module Rounding {

  /** The number of hundredths that `x` rounds to: the nearest integer to
      `100 * x`, ties going to the even neighbour. */
  function RoundToCents(x: real): (k: int)
    ensures -0.5 <= k as real - 100.0 * x <= 0.5
    ensures k as real - 100.0 * x == 0.5 || k as real - 100.0 * x == -0.5 ==> k % 2 == 0
  {
    var y := 100.0 * x;
    var f := y.Floor;
    var frac := y - f as real;
    if frac < 0.5 then f
    else if frac > 0.5 then f + 1
    else if f % 2 == 0 then f
    else f + 1
  }

  /** The contract of RoundToCents determines its result: no other integer is
      as near to `100 * x` with the same tie rule. */
  lemma RoundToCentsUnique(x: real, j: int)
    requires -0.5 <= j as real - 100.0 * x <= 0.5
    requires j as real - 100.0 * x == 0.5 || j as real - 100.0 * x == -0.5 ==> j % 2 == 0
    ensures j == RoundToCents(x)
  {
  }

  /** `x` rounded to two decimal places: a whole number of hundredths, the
      one RoundToCents picks. */
  function Round2(x: real): (r: real)
    ensures 100.0 * r == RoundToCents(x) as real
    ensures -0.005 <= r - x <= 0.005
    ensures x >= 0.0 ==> r >= 0.0
    ensures x <= 0.0 ==> r <= 0.0
  {
    RoundToCents(x) as real / 100.0
  }

  /** Rounding an amount that is already whole hundredths changes nothing. */
  lemma Round2Idempotent(x: real)
    ensures Round2(Round2(x)) == Round2(x)
  {
    var k := RoundToCents(x);
    assert 100.0 * Round2(x) == k as real;
    RoundToCentsUnique(Round2(x), k);
  }

  /** A midpoint goes to the even hundredth: 0.005 rounds down to 0.00 and
      0.015 rounds up to 0.02; 1.9995 rounds to 2.00. */
  lemma Round2Examples()
    ensures Round2(0.005) == 0.0
    ensures Round2(0.015) == 0.02
    ensures Round2(1.9995) == 2.0
    ensures Round2(0.5) == 0.5
  {
    RoundToCentsUnique(0.005, 0);
    RoundToCentsUnique(0.015, 2);
    RoundToCentsUnique(1.9995, 200);
    RoundToCentsUnique(0.5, 50);
  }
}
