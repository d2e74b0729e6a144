/** The two Python 2 numeric conversions the phrase compiler applies to its
    decimal inputs, over exact reals. */
module PyNum {

  /** The least integer not below x. */
  function Ceil(x: real): (c: int)
    ensures c as real - 1.0 < x <= c as real
  {
    -((-x).Floor)
  }

  /** int(x) on a float: the integer part, truncated toward zero, that is
      the floor of a non-negative x and the ceiling of a negative one. */
  function Trunc(x: real): (i: int)
    ensures 0.0 <= x ==> 0 <= i && i as real <= x < i as real + 1.0
    ensures x < 0.0 ==> i <= 0 && i as real - 1.0 < x <= i as real
  {
    if x >= 0.0 then x.Floor else Ceil(x)
  }

  /** round(x) in Python 2: the nearest integer, a half rounding away from zero. */
  function Round(x: real): (r: int)
    ensures -0.5 <= x - r as real <= 0.5
    ensures x - r as real == 0.5 ==> x < 0.0
    ensures r as real - x == 0.5 ==> x > 0.0
    ensures 0.0 <= x ==> 0 <= r
    ensures x <= 0.0 ==> r <= 0
  {
    if x >= 0.0 then (x + 0.5).Floor else -((-x + 0.5).Floor)
  }

  /** The contract of Round fixes its result: no other integer is as near
      to x with the same tie rule. */
  lemma RoundUnique(x: real, r: int)
    requires -0.5 <= x - r as real <= 0.5
    requires x - r as real == 0.5 ==> x < 0.0
    requires r as real - x == 0.5 ==> x > 0.0
    ensures r == Round(x)
  {
  }
}
