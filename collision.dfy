/** `find_ball_paddle_collision_point` of the game: a swept test of the ball's distance from
    the arena centre against the near face of a paddle, gated by the paddle's arc. */
module Collision {
  import opened Angles
  import opened Vectors
  import opened Paddles
  import opened Wrappers

  /** `f32::signum`: 1 for zero and above (the difference of two equal distances is +0),
      -1 below. */
  function Signum(x: real): (s: real)
    ensures s == 1.0 || s == -1.0
    ensures x >= 0.0 ==> s == 1.0
    ensures x < 0.0 ==> s == -1.0
  {
    if x >= 0.0 then 1.0 else -1.0
  }

  /** Distance from the centre of the face the ball meets first: the inner face when it
      moves outward (`sign` 1), the outer face when it moves inward (`sign` -1), each
      widened by the ball's radius. */
  function FaceDistance(paddle: PaddleView, ballRadius: real, sign: real): real
  {
    paddle.radiusOrigin - sign * (paddle.halfHeight + ballRadius)
  }

  /** The half-open crossing: the face lies after the previous distance and no further than
      the current one, in the direction of travel. */
  predicate Crosses(previousDist: real, currentDist: real, face: real)
  {
    (previousDist < face <= currentDist) || (previousDist > face >= currentDist)
  }

  /** The share of this frame's radial travel covered when the face is reached. */
  function ImpactRatio(previousDist: real, currentDist: real, face: real): (ratio: real)
    requires Crosses(previousDist, currentDist, face)
    ensures 0.0 < ratio <= 1.0
    ensures previousDist + ratio * (currentDist - previousDist) == face
  {
    QuotientInUnitInterval(face - previousDist, currentDist - previousDist);
    (face - previousDist) / (currentDist - previousDist)
  }

  /** A quotient whose numerator is non-zero, has the sign of the denominator and is no
      larger in magnitude lies in (0, 1]. */
  lemma QuotientInUnitInterval(a: real, b: real)
    requires (0.0 < a <= b) || (b <= a < 0.0)
    ensures 0.0 < a / b <= 1.0
    ensures a / b * b == a
  {
    var q := a / b;
    assert q * b == a;
  }

  /** `previous + (current - previous).normalize() * ratio`. */
  function CollisionPoint(geo: Geometry, current: Vec3, previous: Vec3, ratio: real): Vec3
  {
    Add(previous, Scale(ratio, geo.normalize(Sub(current, previous))))
  }

  /** The arc gate: the plain difference of the two angles, with no wrap-around at the seam. */
  predicate WithinArc(collisionRot: real, paddle: PaddleView): (b: bool)
    ensures b <==> paddle.angleOrigin - paddle.halfSurfaceAngle <= collisionRot <= paddle.angleOrigin + paddle.halfSurfaceAngle
  {
    Abs(collisionRot - paddle.angleOrigin) <= paddle.halfSurfaceAngle
  }

  /** The gate misses across the seam: a paddle at 0.1 spanning ±π/12 rejects a point at
      `atan2` angle -0.05, 0.15 away around the circle, because normalising puts that point
      near 2π. */
  lemma ArcGateMissesAcrossSeam(geo: Geometry, p: Vec3, paddle: PaddleView)
    requires paddle.angleOrigin == 0.1 && paddle.halfSurfaceAngle == PI / 12.0
    requires geo.atan2(p.y, p.x) == -0.05
    ensures Abs(geo.atan2(p.y, p.x) - paddle.angleOrigin) <= paddle.halfSurfaceAngle
    ensures !WithinArc(RotationOf(geo, p), paddle)
  {
    PositiveAngleOfHalfTurns(-0.05);
  }

  /** The angle of a point around the arena centre, normalised. */
  function RotationOf(geo: Geometry, p: Vec3): real
  {
    PositiveAngle(geo.atan2(p.y, p.x))
  }

  /** `find_ball_paddle_collision_point`: the collision point and the impact ratio, if the
      ball's distance from the centre crossed the near face of the paddle this frame inside
      the paddle's arc. */
  function FindBallPaddleCollisionPoint(geo: Geometry, current: Vec3, previous: Vec3, ballRadius: real, paddle: PaddleView)
    : (r: Option<(Vec3, real)>)
    ensures geo.length(current) == geo.length(previous) ==> r == None
    ensures r.Some? ==> 0.0 < r.value.1 <= 1.0
    ensures r.Some? ==> Crosses(geo.length(previous), geo.length(current),
                                FaceDistance(paddle, ballRadius, Signum(geo.length(current) - geo.length(previous))))
    ensures r.Some? ==> WithinArc(RotationOf(geo, r.value.0), paddle)
  {
    var currentDist := geo.length(current);
    var previousDist := geo.length(previous);
    var face := FaceDistance(paddle, ballRadius, Signum(currentDist - previousDist));
    if Crosses(previousDist, currentDist, face) then
      var ratio := ImpactRatio(previousDist, currentDist, face);
      var collisionPoint := CollisionPoint(geo, current, previous, ratio);
      if WithinArc(RotationOf(geo, collisionPoint), paddle) then Some((collisionPoint, ratio)) else None
    else
      None
  }

  /** A collision is reported exactly when the distance crosses the near face and the
      crossing point passes the arc gate; it then carries that point and the impact ratio. */
  lemma CollisionIff(geo: Geometry, current: Vec3, previous: Vec3, ballRadius: real, paddle: PaddleView)
    ensures
      var previousDist, currentDist := geo.length(previous), geo.length(current);
      var face := FaceDistance(paddle, ballRadius, Signum(currentDist - previousDist));
      var r := FindBallPaddleCollisionPoint(geo, current, previous, ballRadius, paddle);
      (r.Some? <==> Crosses(previousDist, currentDist, face)
                    && WithinArc(RotationOf(geo, CollisionPoint(geo, current, previous, (face - previousDist) / (currentDist - previousDist))), paddle))
      && (r.Some? ==> r.value.1 == (face - previousDist) / (currentDist - previousDist)
                      && r.value.0 == CollisionPoint(geo, current, previous, r.value.1))
  {
  }

  /** Moving outward only the inner face (`radius_origin - half_height - radius`) can be
      hit, moving inward only the outer face. */
  lemma {:induction false} CollisionFaceByDirection(geo: Geometry, current: Vec3, previous: Vec3, ballRadius: real, paddle: PaddleView)
    requires FindBallPaddleCollisionPoint(geo, current, previous, ballRadius, paddle).Some?
    ensures
      var previousDist, currentDist := geo.length(previous), geo.length(current);
      var range := paddle.halfHeight + ballRadius;
      (previousDist < currentDist && previousDist < paddle.radiusOrigin - range <= currentDist)
      || (previousDist > currentDist && previousDist > paddle.radiusOrigin + range >= currentDist)
  {
    var previousDist, currentDist := geo.length(previous), geo.length(current);
    if previousDist < currentDist {
      assert Signum(currentDist - previousDist) == 1.0;
    } else {
      assert Signum(currentDist - previousDist) == -1.0;
    }
  }

  /** As written, the collision point is `ratio` along the unit direction of travel from
      the previous position, so it lies within one unit of it whatever the frame's step. */
  lemma CollisionPointOffset(geo: Geometry, current: Vec3, previous: Vec3, ballRadius: real, paddle: PaddleView)
    requires FindBallPaddleCollisionPoint(geo, current, previous, ballRadius, paddle).Some?
    requires LengthSquared(geo.normalize(Sub(current, previous))) == 1.0
    ensures
      var r := FindBallPaddleCollisionPoint(geo, current, previous, ballRadius, paddle).value;
      LengthSquared(Sub(r.0, previous)) == r.1 * r.1 <= 1.0
  {
    var r := FindBallPaddleCollisionPoint(geo, current, previous, ballRadius, paddle).value;
    var u := geo.normalize(Sub(current, previous));
    var k := r.1;
    assert Sub(r.0, previous) == Scale(k, u);
    calc {
      LengthSquared(Scale(k, u));
      k * u.x * (k * u.x) + k * u.y * (k * u.y) + k * u.z * (k * u.z);
      k * k * LengthSquared(u);
      k * k;
    }
    assert k * k <= 1.0 by {
      assert 0.0 < k <= 1.0;
      MulLeqOne(k);
    }
  }

  lemma MulLeqOne(k: real)
    requires 0.0 < k <= 1.0
    ensures k * k <= 1.0
  {
    assert k * k <= k * 1.0;
  }
}
