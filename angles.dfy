/** Angle utility of the game: `positive_angle` and the f32 `%` it is built on.
    Angles are radians over the reals; PI is the exact value of the f32 constant
    `std::f32::consts::PI`. */
module Angles {

  const PI: real := 3.1415927410125732421875
  const TWO_PI: real := 2.0 * PI

  /** Truncation toward zero, the quotient inside Rust's float `%`. */
  function Trunc(q: real): (t: int)
    ensures q >= 0.0 ==> t as real <= q < t as real + 1.0
    ensures q < 0.0 ==> t as real - 1.0 < q <= t as real
  {
    if q >= 0.0 then q.Floor else -((-q).Floor)
  }

  /** Rust's `%` on floats with the divisor 2π, the only one the game uses: the remainder of
      a truncating division, carrying the sign of `x`. */
  function RemTwoPi(x: real): (r: real)
    ensures 0.0 <= x ==> 0.0 <= r < TWO_PI
    ensures x < 0.0 ==> -TWO_PI < r <= 0.0
  {
    x - Trunc(x / TWO_PI) as real * TWO_PI
  }

  /** `positive_angle`: `(angle + 2π) % 2π`. Lands in [0, 2π) for every argument of at
      least -2π; below that the truncating remainder is in (-2π, 0], and 0 at whole turns. */
  function PositiveAngle(angle: real): (r: real)
    ensures -TWO_PI <= angle ==> 0.0 <= r < TWO_PI
    ensures angle < -TWO_PI ==> -TWO_PI < r <= 0.0
  {
    RemTwoPi(angle + TWO_PI)
  }

  /** For a non-negative dividend the remainder is the unique value of [0, 2π) that differs
      from `x` by a whole number of turns. */
  lemma RemTwoPiUnique(x: real, k: int, r: real)
    requires 0.0 <= x
    requires 0.0 <= r < TWO_PI && x == r + k as real * TWO_PI
    ensures RemTwoPi(x) == r
  {
    var f := r / TWO_PI;
    assert 0.0 <= f < 1.0;
    assert x / TWO_PI == f + k as real;
    assert Trunc(x / TWO_PI) == k;
  }

  /** On every value `atan2` can return, [-π, π], `positive_angle` keeps a non-negative
      angle and adds one turn to a negative one. */
  lemma {:induction false} PositiveAngleOfHalfTurns(a: real)
    requires -PI <= a <= PI
    ensures PositiveAngle(a) == if a >= 0.0 then a else a + TWO_PI
  {
    if a >= 0.0 {
      RemTwoPiUnique(a + TWO_PI, 1, a);
    } else {
      RemTwoPiUnique(a + TWO_PI, 0, a + TWO_PI);
    }
  }

  /** The cases of `test_positive_angle`. */
  lemma PositiveAngleTests()
    ensures PositiveAngle(0.0) == 0.0
    ensures PositiveAngle(TWO_PI) == 0.0
    ensures PositiveAngle(PI) == PI
    ensures PositiveAngle(-PI) == PI
    ensures PositiveAngle(-0.5 * PI) == 1.5 * PI
  {
    PositiveAngleOfHalfTurns(0.0);
    RemTwoPiUnique(TWO_PI + TWO_PI, 2, 0.0);
    PositiveAngleOfHalfTurns(PI);
    PositiveAngleOfHalfTurns(-PI);
    PositiveAngleOfHalfTurns(-0.5 * PI);
  }

  /** An angle already in [0, 2π) is left as it is. */
  lemma PositiveAngleFixes(a: real)
    requires 0.0 <= a < TWO_PI
    ensures PositiveAngle(a) == a
  {
    RemTwoPiUnique(a + TWO_PI, 1, a);
  }

  /** Whole turns do not change the result, as long as both arguments stay at or above -2π
      (the range in which the remainder is non-negative). */
  lemma PositiveAnglePeriodic(a: real, k: int)
    requires -TWO_PI <= a && -TWO_PI <= a + k as real * TWO_PI
    ensures PositiveAngle(a + k as real * TWO_PI) == PositiveAngle(a)
  {
    var r := PositiveAngle(a);
    var t := Trunc((a + TWO_PI) / TWO_PI);
    assert a + TWO_PI == r + t as real * TWO_PI;
    RemTwoPiUnique(a + k as real * TWO_PI + TWO_PI, t + k, r);
  }

  /** Below -2π the result leaves [0, 2π): -3π is mapped to -π. */
  lemma PositiveAngleBelowRange()
    ensures PositiveAngle(-3.0 * PI) == -PI
  {
    var x := -3.0 * PI + TWO_PI;
    assert x / TWO_PI == -0.5;
    assert Trunc(-0.5) == 0;
  }
}
