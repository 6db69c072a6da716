/** The arc-shaped paddle of the game: its geometry, its orientation and `set_angle`,
    which stores a new orientation together with the signed shortest turn to it. */
module Paddles {
  import opened Angles

  /** The outer and inner arena radii, `RADIUS_EXTERN` and `RADIUS_INTERN`. */
  const RADIUS_EXTERN: real := 285.0
  const RADIUS_INTERN: real := 108.0

  /** The paddle's fields as one value, for the collision and reflection functions. */
  datatype PaddleView = PaddleView(
    radiusOrigin: real,
    halfSurfaceAngle: real,
    halfHeight: real,
    angleOrigin: real,
    angleSpeed: real)

  /** The `angle_speed` `set_angle` stores: the difference of the two orientations, moved
      by one turn when it exceeds a half turn either way. */
  function TurnDelta(previous: real, target: real): (d: real)
    ensures d == target - previous || d == target - previous - TWO_PI || d == target - previous + TWO_PI
  {
    var delta := target - previous;
    if delta > PI then target - (previous + TWO_PI)
    else if delta < -PI then target + TWO_PI - previous
    else delta
  }

  /** Between two normalised orientations the turn is at most a half turn either way. */
  lemma TurnDeltaBounded(previous: real, target: real)
    requires 0.0 <= previous < TWO_PI && 0.0 <= target < TWO_PI
    ensures -PI <= TurnDelta(previous, target) <= PI
  {
  }

  /** The turn is the shortest one: no other whole-turn variant of it is smaller. */
  lemma TurnDeltaShortest(previous: real, target: real, k: int)
    requires 0.0 <= previous < TWO_PI && 0.0 <= target < TWO_PI
    ensures Abs(TurnDelta(previous, target)) <= Abs(TurnDelta(previous, target) + k as real * TWO_PI)
  {
    TurnDeltaBounded(previous, target);
    var d := TurnDelta(previous, target);
    if k >= 1 {
      assert d + k as real * TWO_PI >= d + TWO_PI;
    } else if k <= -1 {
      assert d + k as real * TWO_PI <= d - TWO_PI;
    }
  }

  /** Turning by the stored delta from the previous orientation reaches the new one. */
  lemma {:induction false} TurnDeltaReachesTarget(previous: real, target: real)
    requires 0.0 <= previous < TWO_PI && 0.0 <= target < TWO_PI
    ensures PositiveAngle(previous + TurnDelta(previous, target)) == target
  {
    var d := TurnDelta(previous, target);
    var k := if d == target - previous then 0 else if d == target - previous - TWO_PI then 1 else -1;
    assert previous + d + k as real * TWO_PI == target;
    TurnDeltaBounded(previous, target);
    PositiveAnglePeriodic(previous + d, k);
    PositiveAngleFixes(target);
  }

  /** Crossing the seam the short way: from 0.1 to 2π - 0.1 the turn is -0.2. */
  lemma TurnDeltaAcrossSeam()
    ensures TurnDelta(0.1, TWO_PI - 0.1) == -0.2
  {
  }

  function Abs(x: real): real { if x < 0.0 then -x else x }

  class Paddle {
    const radiusOrigin: real
    const halfSurfaceAngle: real
    const halfHeight: real
    var angleOrigin: real
    var angleSpeed: real

    /** Orientation normalised, last turn at most a half turn. */
    ghost predicate Valid()
      reads this
    {
      0.0 <= angleOrigin < TWO_PI && -PI <= angleSpeed <= PI
    }

    function View(): PaddleView
      reads this
    {
      PaddleView(radiusOrigin, halfSurfaceAngle, halfHeight, angleOrigin, angleSpeed)
    }

    /** The `Paddle` that `add_paddle` attaches: half the arc and half the thickness, at
        orientation 0 and not turning. */
    constructor (radius: real, height: real, surfaceAngle: real)
      ensures radiusOrigin == radius && halfSurfaceAngle == surfaceAngle / 2.0 && halfHeight == height / 2.0
      ensures angleOrigin == 0.0 && angleSpeed == 0.0
      ensures Valid()
    {
      radiusOrigin := radius;
      halfSurfaceAngle := surfaceAngle / 2.0;
      halfHeight := height / 2.0;
      angleOrigin := 0.0;
      angleSpeed := 0.0;
    }

    /** `set_angle`: store the normalised aim and the signed turn from the previous
        orientation. Every caller passes an `atan2` result, which keeps the paddle valid. */
    method SetAngle(angle: real)
      modifies this`angleOrigin, this`angleSpeed
      ensures angleOrigin == PositiveAngle(angle)
      ensures angleSpeed == TurnDelta(old(angleOrigin), angleOrigin)
      ensures old(Valid()) && -TWO_PI <= angle ==> Valid()
      ensures old(Valid()) && -TWO_PI <= angle ==> PositiveAngle(old(angleOrigin) + angleSpeed) == angleOrigin
    {
      var previousAngle := angleOrigin;
      var newAngle := PositiveAngle(angle);
      var angleDelta := newAngle - previousAngle;
      angleOrigin := newAngle;
      if angleDelta > PI {
        angleSpeed := newAngle - (previousAngle + TWO_PI);
      } else if angleDelta < -PI {
        angleSpeed := newAngle + TWO_PI - previousAngle;
      } else {
        angleSpeed := angleDelta;
      }
      if old(Valid()) && -TWO_PI <= angle {
        TurnDeltaBounded(previousAngle, newAngle);
        TurnDeltaReachesTarget(previousAngle, newAngle);
      }
    }
  }

  /** `setup`: the outer paddle (thickness 12) and the inner one (thickness 4), each
      spanning π/6, in that order. */
  method SetupPaddles() returns (paddles: seq<Paddle>)
    ensures |paddles| == 2 && paddles[0] != paddles[1]
    ensures fresh(paddles[0]) && fresh(paddles[1])
    ensures paddles[0].View() == PaddleView(RADIUS_EXTERN, PI / 12.0, 6.0, 0.0, 0.0)
    ensures paddles[1].View() == PaddleView(RADIUS_INTERN, PI / 12.0, 2.0, 0.0, 0.0)
  {
    var outer := new Paddle(RADIUS_EXTERN, 12.0, PI / 6.0);
    var inner := new Paddle(RADIUS_INTERN, 4.0, PI / 6.0);
    paddles := [outer, inner];
  }
}
