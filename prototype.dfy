/** The earlier prototype of the game (the top-level program): paddles placed by their
    transforms, a crossing test on the paddle's nominal radius with strict bounds, an
    acceptance test by squared distance to the paddle centre, and a score that the
    collision system itself increments. */
module Prototype {
  import opened Vectors
  import opened Wrappers
  import Score

  const RADIUS_EXTERN: real := 285.0
  const RADIUS_INTERN: real := 108.0
  /** Where `start_system` puts a new ball. */
  const SPAWN_POINT: Vec3 := Vec3(10.0, -(RADIUS_EXTERN + RADIUS_INTERN) / 2.0, 1.0)

  datatype Paddle = Paddle(radiusOrigin: real, halfHeight: real, halfWidth: real)

  /** A paddle with the point its transform maps `(radius_origin, 0, 0)` to: its centre. */
  datatype PlacedPaddle = PlacedPaddle(paddle: Paddle, centre: Vec3)

  /** The paddles of `setup`: the outer one (half height 5, half width 90) and the inner
      one (half height 2, half width 20). */
  function SetupPaddles(): (ps: seq<Paddle>)
    ensures |ps| == 2 && ps[0].radiusOrigin > ps[1].radiusOrigin
  {
    [Paddle(RADIUS_EXTERN, 5.0, 90.0), Paddle(RADIUS_INTERN, 2.0, 20.0)]
  }

  /** The distance at which the prototype places a collision: only when the nominal radius
      lies strictly between the two distances; the face toward the ball's origin. */
  function CollisionDistance(previousDist: real, currentDist: real, paddle: Paddle): (c: Option<real>)
    ensures c.Some? <==> StrictlyBetween(previousDist, paddle.radiusOrigin, currentDist)
    ensures c.Some? && previousDist < currentDist ==> c.value == paddle.radiusOrigin - paddle.halfHeight
    ensures c.Some? && previousDist > currentDist ==> c.value == paddle.radiusOrigin + paddle.halfHeight
  {
    var paddleDist := paddle.radiusOrigin;
    if previousDist < paddleDist && paddleDist < currentDist then Some(paddleDist - paddle.halfHeight)
    else if previousDist > paddleDist && paddleDist > currentDist then Some(paddleDist + paddle.halfHeight)
    else None
  }

  /** The point the prototype takes as the collision: from the previous position, along
      the unit direction of travel, by the share of the radial travel left after the face. */
  function ImpactPoint(geo: Geometry, current: Vec3, previous: Vec3, face: real): Vec3
    requires geo.length(current) != geo.length(previous)
  {
    var ratio := (geo.length(current) - face) / (geo.length(current) - geo.length(previous));
    Add(previous, Scale(ratio, geo.normalize(Sub(current, previous))))
  }

  /** The prototype's `find_ball_paddle_collision_point`. */
  function FindCollisionPoint(geo: Geometry, current: Vec3, previous: Vec3, placed: PlacedPaddle): (r: Option<Vec3>)
    ensures r.Some? ==> StrictlyBetween(geo.length(previous), placed.paddle.radiusOrigin, geo.length(current))
    ensures geo.length(previous) == placed.paddle.radiusOrigin ==> r == None
    ensures geo.length(current) == placed.paddle.radiusOrigin ==> r == None
    ensures r.Some? ==> LengthSquared(Sub(r.value, placed.centre)) <= placed.paddle.halfWidth * placed.paddle.halfWidth
  {
    var currentDist := geo.length(current);
    var previousDist := geo.length(previous);
    match CollisionDistance(previousDist, currentDist, placed.paddle)
    case None => None
    case Some(collisionDist) =>
      var collisionPoint := ImpactPoint(geo, current, previous, collisionDist);
      if LengthSquared(Sub(collisionPoint, placed.centre)) <= placed.paddle.halfWidth * placed.paddle.halfWidth
      then Some(collisionPoint)
      else None
  }

  /** `b` lies strictly between `a` and `c`, in either order. */
  predicate StrictlyBetween(a: real, b: real, c: real)
  {
    (a < b < c) || (a > b > c)
  }

  /** A collision is reported exactly when the nominal radius is strictly crossed and the
      point is within `half_width` of the paddle centre; the point is placed using the inner
      face when moving outward and the outer face when moving inward. */
  lemma CollisionIff(geo: Geometry, current: Vec3, previous: Vec3, placed: PlacedPaddle)
    ensures
      var previousDist, currentDist := geo.length(previous), geo.length(current);
      var p := placed.paddle;
      var face := if previousDist < currentDist then p.radiusOrigin - p.halfHeight else p.radiusOrigin + p.halfHeight;
      var r := FindCollisionPoint(geo, current, previous, placed);
      (r.Some? <==> StrictlyBetween(previousDist, p.radiusOrigin, currentDist)
                    && LengthSquared(Sub(ImpactPoint(geo, current, previous, face), placed.centre)) <= p.halfWidth * p.halfWidth)
      && (r.Some? ==> r.value == ImpactPoint(geo, current, previous, face))
  {
  }

  /** `ball_movement_system`'s timestep: the frame time capped at one second (no lower
      bound in the prototype). */
  function ClampDelta(raw: real): (dt: real)
    ensures dt <= 1.0 && dt <= raw && (dt == 1.0 || dt == raw)
  {
    if raw <= 1.0 then raw else 1.0
  }

  /** `f32::cos` and `f32::sin`, left to the caller. */
  datatype Trig = Trig(cos: real -> real, sin: real -> real)

  /** `compute_reflection`: rotate the plane by minus the axis angle, mirror across the x
      axis, rotate back. */
  function ComputeReflection(trig: Trig, xAxisAngle: real, position: Vec3): (r: Vec3)
    ensures r.z == position.z
  {
    var c, s := trig.cos(xAxisAngle), trig.sin(xAxisAngle);
    var unrotated := Vec3(c * position.x + s * position.y, -s * position.x + c * position.y, position.z);
    var mirrored := Vec3(unrotated.x, -unrotated.y, unrotated.z);
    Vec3(c * mirrored.x - s * mirrored.y, s * mirrored.x + c * mirrored.y, mirrored.z)
  }

  /** With `cos² + sin² = 1`, `compute_reflection` is the mirror image across the line
      through the origin along `u = (cos, sin)`: `2 (p·u) u - p` in the plane, height kept. */
  lemma ComputeReflectionIsMirror(trig: Trig, xAxisAngle: real, position: Vec3)
    requires
      var c, s := trig.cos(xAxisAngle), trig.sin(xAxisAngle);
      c * c + s * s == 1.0
    ensures
      var u := Vec3(trig.cos(xAxisAngle), trig.sin(xAxisAngle), 0.0);
      var d := Dot2(position, u);
      ComputeReflection(trig, xAxisAngle, position)
        == Vec3(2.0 * d * u.x - position.x, 2.0 * d * u.y - position.y, position.z)
  {
    var c, s := trig.cos(xAxisAngle), trig.sin(xAxisAngle);
    var p := position;
    var r := ComputeReflection(trig, xAxisAngle, p);
    var d := c * p.x + s * p.y;
    assert r.x == (c * c - s * s) * p.x + 2.0 * c * s * p.y;
    assert r.x == 2.0 * d * c - p.x by {
      assert 2.0 * d * c - p.x == 2.0 * c * c * p.x + 2.0 * c * s * p.y - (c * c + s * s) * p.x;
    }
    assert r.y == 2.0 * c * s * p.x + (s * s - c * c) * p.y;
    assert r.y == 2.0 * d * s - p.y by {
      assert 2.0 * d * s - p.y == 2.0 * c * s * p.x + 2.0 * s * s * p.y - (c * c + s * s) * p.y;
    }
  }

  /** The ball's transform translation and its velocity vector. */
  datatype BallState = BallState(translation: Vec3, velocity: Vec3)

  /** One paddle's turn in `ball_collision_system`: on a collision the ball is put at the
      collision point and its velocity becomes the mirror image of the old one about the
      line through the centre and that point (`compute_reflection`). */
  function Collide(geo: Geometry, trig: Trig, s: BallState, previous: Vec3, placed: PlacedPaddle)
    : (r: (BallState, bool))
    ensures r.1 <==> FindCollisionPoint(geo, s.translation, previous, placed).Some?
    ensures !r.1 ==> r.0 == s
    ensures r.1 ==> r.0.translation == FindCollisionPoint(geo, s.translation, previous, placed).value
  {
    match FindCollisionPoint(geo, s.translation, previous, placed)
    case None => (s, false)
    case Some(collisionPoint) =>
      var oAngle := geo.atan2(collisionPoint.y, collisionPoint.x);
      var dest := ComputeReflection(trig, oAngle, Sub(collisionPoint, s.velocity));
      (BallState(collisionPoint, Sub(dest, collisionPoint)), true)
  }

  /** When `cos`/`sin` of the angle `atan2` gives for the collision point describe the unit
      vector toward that point, the new velocity is the old one mirrored about the normal
      through the point (in the plane; its height is negated): the bounce keeps the speed
      and reverses the radial component. */
  lemma CollideReflectsVelocity(geo: Geometry, trig: Trig, s: BallState, previous: Vec3, placed: PlacedPaddle, k: real)
    requires FindCollisionPoint(geo, s.translation, previous, placed).Some?
    requires
      var cp := FindCollisionPoint(geo, s.translation, previous, placed).value;
      var a := geo.atan2(cp.y, cp.x);
      var c, sn := trig.cos(a), trig.sin(a);
      c * c + sn * sn == 1.0 && cp.x == k * c && cp.y == k * sn
    ensures
      var cp := FindCollisionPoint(geo, s.translation, previous, placed).value;
      var a := geo.atan2(cp.y, cp.x);
      var u := Vec3(trig.cos(a), trig.sin(a), 0.0);
      var v := Collide(geo, trig, s, previous, placed).0.velocity;
      Vec3(v.x, v.y, 0.0) == Reflect2D(s.velocity, u) && v.z == -s.velocity.z
      && Norm2(v) == Norm2(s.velocity) && Dot2(v, u) == -Dot2(s.velocity, u)
  {
    var cp := FindCollisionPoint(geo, s.translation, previous, placed).value;
    var a := geo.atan2(cp.y, cp.x);
    var u := Vec3(trig.cos(a), trig.sin(a), 0.0);
    ReflectionAboutOwnAxis(trig, a, cp, s.velocity, k);
    ReflectNormalComponent(s.velocity, u);
    ReflectPreservesLength(s.velocity, u);
  }

  /** The arithmetic of the bounce: reflecting `cp - v` about the axis through `cp` and
      subtracting `cp` again mirrors `v` itself. */
  lemma ReflectionAboutOwnAxis(trig: Trig, a: real, cp: Vec3, velocity: Vec3, k: real)
    requires
      var c, sn := trig.cos(a), trig.sin(a);
      c * c + sn * sn == 1.0 && cp.x == k * c && cp.y == k * sn
    ensures
      var u := Vec3(trig.cos(a), trig.sin(a), 0.0);
      var v := Sub(ComputeReflection(trig, a, Sub(cp, velocity)), cp);
      Vec3(v.x, v.y, 0.0) == Reflect2D(velocity, u) && v.z == -velocity.z
  {
    var c, sn := trig.cos(a), trig.sin(a);
    var w := Sub(cp, velocity);
    ComputeReflectionIsMirror(trig, a, w);
    MirrorShiftArithmetic(c, sn, k, velocity.x, velocity.y);
  }

  /** The same on coordinates: with `p = k (c, s)` and `w = p - v`,
      `2 (w·u) u - w - p == v - 2 (v·u) u` for the unit vector `u = (c, s)`. */
  lemma MirrorShiftArithmetic(c: real, sn: real, k: real, vx: real, vy: real)
    requires c * c + sn * sn == 1.0
    ensures
      var wx, wy := k * c - vx, k * sn - vy;
      var dw, dv := wx * c + wy * sn, vx * c + vy * sn;
      2.0 * dw * c - wx - k * c == vx - 2.0 * dv * c
      && 2.0 * dw * sn - wy - k * sn == vy - 2.0 * dv * sn
  {
    var wx, wy := k * c - vx, k * sn - vy;
    var dv := vx * c + vy * sn;
    assert wx * c + wy * sn == k * (c * c + sn * sn) - dv;
  }

  /** The paddle loop for one ball, with the number of collisions it accepted. */
  function CollideAll(geo: Geometry, trig: Trig, s: BallState, previous: Vec3, paddles: seq<PlacedPaddle>)
    : (r: (BallState, nat))
    ensures r.1 <= |paddles|
    decreases |paddles|
  {
    if paddles == [] then (s, 0)
    else
      var (s1, n) := CollideAll(geo, trig, s, previous, paddles[..|paddles| - 1]);
      var (s2, hit) := Collide(geo, trig, s1, previous, paddles[|paddles| - 1]);
      (s2, n + if hit then 1 else 0)
  }

  /** With no accepted collision the paddle loop leaves the ball where it is. */
  lemma {:induction false} CollideAllWithoutHits(geo: Geometry, trig: Trig, s: BallState, previous: Vec3, paddles: seq<PlacedPaddle>)
    requires CollideAll(geo, trig, s, previous, paddles).1 == 0
    ensures CollideAll(geo, trig, s, previous, paddles).0 == s
    decreases |paddles|
  {
    if paddles != [] {
      CollideAllWithoutHits(geo, trig, s, previous, paddles[..|paddles| - 1]);
    }
  }

  /** The position the ball is taken to have had a frame ago: one step back along its
      velocity. */
  function PreviousPosition(s: BallState, dt: real): Vec3
  {
    Sub(s.translation, Scale(dt, s.velocity))
  }

  /** The collisions of every ball in order, each against all paddles. */
  function TotalHits(geo: Geometry, trig: Trig, states: seq<BallState>, paddles: seq<PlacedPaddle>, dt: real)
    : (n: nat)
    ensures n == 0 <==> forall i :: 0 <= i < |states| ==>
                          CollideAll(geo, trig, states[i], PreviousPosition(states[i], dt), paddles).1 == 0
  {
    if states == [] then 0
    else
      var init := states[..|states| - 1];
      var last := states[|states| - 1];
      TotalHits(geo, trig, init, paddles, dt)
      + CollideAll(geo, trig, last, PreviousPosition(last, dt), paddles).1
  }

  /** A frame scores at most one point per ball and paddle. */
  lemma {:induction false} TotalHitsBound(geo: Geometry, trig: Trig, states: seq<BallState>, paddles: seq<PlacedPaddle>, dt: real)
    ensures TotalHits(geo, trig, states, paddles, dt) <= |states| * |paddles|
  {
    if states != [] {
      var init := states[..|states| - 1];
      var last := states[|states| - 1];
      TotalHitsBound(geo, trig, init, paddles, dt);
      var hits := CollideAll(geo, trig, last, PreviousPosition(last, dt), paddles).1;
      assert TotalHits(geo, trig, states, paddles, dt) == TotalHits(geo, trig, init, paddles, dt) + hits;
      assert hits <= |paddles|;
      MulSucc(|init|, |paddles|);
    }
  }

  lemma MulSucc(a: nat, b: nat)
    ensures (a + 1) * b == a * b + b
  {
  }

  class Ball {
    var translation: Vec3
    var velocity: Vec3

    function State(): BallState
      reads this
    {
      BallState(translation, velocity)
    }

    /** The ball `start_system` spawns: 410 along `(0.5, -0.5, 0).normalize()`. */
    constructor Spawn(geo: Geometry)
      ensures State() == BallState(SPAWN_POINT, Scale(410.0, geo.normalize(Vec3(0.5, -0.5, 0.0))))
    {
      translation := SPAWN_POINT;
      velocity := Scale(410.0, geo.normalize(Vec3(0.5, -0.5, 0.0)));
    }

    /** `ball_movement_system` for this ball: one step of `velocity * min(1, delta)`. */
    method Move(rawDelta: real)
      modifies this
      ensures translation == Add(old(translation), Scale(ClampDelta(rawDelta), velocity))
      ensures velocity == old(velocity)
    {
      var deltaSeconds := ClampDelta(rawDelta);
      translation := Add(translation, Scale(deltaSeconds, velocity));
    }

    /** `ball_collision_system` for this ball; returns the number of points scored. */
    method Collisions(geo: Geometry, trig: Trig, paddles: seq<PlacedPaddle>, dt: real)
      returns (hits: nat)
      modifies this
      ensures (State(), hits) == CollideAll(geo, trig, old(State()), PreviousPosition(old(State()), dt), paddles)
    {
      var previous := Sub(translation, Scale(dt, velocity));
      hits := 0;
      for i := 0 to |paddles|
        invariant (State(), hits) == CollideAll(geo, trig, old(State()), previous, paddles[..i])
      {
        var collision := FindCollisionPoint(geo, translation, previous, paddles[i]);
        if collision.Some? {
          var collisionPoint := collision.value;
          var oAngle := geo.atan2(collisionPoint.y, collisionPoint.x);
          var dest := ComputeReflection(trig, oAngle, Sub(collisionPoint, velocity));
          translation := collisionPoint;
          velocity := Sub(dest, collisionPoint);
          hits := hits + 1;
        }
        assert paddles[..i + 1][..i] == paddles[..i];
      }
      assert paddles[..|paddles|] == paddles;
    }
  }

  function States(balls: seq<Ball>): (ss: seq<BallState>)
    reads set b | b in balls
    ensures |ss| == |balls| && forall i :: 0 <= i < |balls| ==> ss[i] == balls[i].State()
  {
    if balls == [] then [] else States(balls[..|balls| - 1]) + [balls[|balls| - 1].State()]
  }

  /** `ball_movement_system`: every ball takes one step of its velocity times the capped
      frame time; velocities are not touched. */
  method BallMovementSystem(balls: seq<Ball>, rawDelta: real)
    requires forall i, j :: 0 <= i < j < |balls| ==> balls[i] != balls[j]
    modifies set b | b in balls
    ensures forall i :: 0 <= i < |balls| ==>
      balls[i].translation == Add(old(balls[i].translation), Scale(ClampDelta(rawDelta), old(balls[i].velocity)))
    ensures forall i :: 0 <= i < |balls| ==> balls[i].velocity == old(balls[i].velocity)
  {
    for i := 0 to |balls|
      invariant forall j :: 0 <= j < i ==>
        balls[j].translation == Add(old(balls[j].translation), Scale(ClampDelta(rawDelta), old(balls[j].velocity)))
      invariant forall j :: 0 <= j < |balls| ==> balls[j].velocity == old(balls[j].velocity)
      invariant forall j :: i <= j < |balls| ==> balls[j].translation == old(balls[j].translation)
    {
      balls[i].Move(rawDelta);
    }
  }

  /** `ball_collision_system`: with the capped timestep, every ball is tested against every
      paddle; each accepted collision moves the ball to the collision point, reflects its
      velocity and scores one point. */
  method BallCollisionSystem(geo: Geometry, trig: Trig, balls: seq<Ball>, paddles: seq<PlacedPaddle>,
                             scoreboard: Score.Scoreboard, rawDelta: real)
    requires forall i, j :: 0 <= i < j < |balls| ==> balls[i] != balls[j]
    modifies (set b | b in balls), scoreboard
    ensures forall i :: 0 <= i < |balls| ==>
      balls[i].State() == CollideAll(geo, trig, old(balls[i].State()),
                                     PreviousPosition(old(balls[i].State()), ClampDelta(rawDelta)), paddles).0
    ensures scoreboard.score == old(scoreboard.score) + TotalHits(geo, trig, old(States(balls)), paddles, ClampDelta(rawDelta))
    ensures scoreboard.best == old(scoreboard.best)
  {
    var deltaSeconds := ClampDelta(rawDelta);
    ghost var states := States(balls);
    for i := 0 to |balls|
      invariant forall j :: 0 <= j < i ==>
        balls[j].State() == CollideAll(geo, trig, states[j], PreviousPosition(states[j], deltaSeconds), paddles).0
      invariant forall j :: i <= j < |balls| ==> balls[j].State() == states[j]
      invariant scoreboard.score == old(scoreboard.score) + TotalHits(geo, trig, states[..i], paddles, deltaSeconds)
      invariant scoreboard.best == old(scoreboard.best)
    {
      var hits := balls[i].Collisions(geo, trig, paddles, deltaSeconds);
      scoreboard.score := scoreboard.score + hits;
      assert states[..i + 1][..i] == states[..i];
    }
    assert states[..|balls|] == states;
  }

  /** The prototype's `start_system`: as in the game, but the ball carries a velocity
      vector of length 410 instead of a direction and a speed tier. */
  method StartSystem(geo: Geometry, scoreboard: Score.Scoreboard, balls: seq<Ball>, events: seq<Score.GameStateEvent>)
    returns (newBalls: seq<Ball>)
    modifies scoreboard
    ensures scoreboard.best >= old(scoreboard.best)
    ensures events == [] ==>
              newBalls == balls && scoreboard.score == old(scoreboard.score) && scoreboard.best == old(scoreboard.best)
    ensures events != [] ==>
              scoreboard.best == Score.MaxNat(old(scoreboard.best), old(scoreboard.score)) && scoreboard.score == 0
    ensures events != [] ==> |newBalls| == |events|
    ensures events != [] ==> forall i :: 0 <= i < |newBalls| ==> fresh(newBalls[i])
    ensures events != [] ==> forall i :: 0 <= i < |newBalls| ==>
              newBalls[i].State() == BallState(SPAWN_POINT, Scale(410.0, geo.normalize(Vec3(0.5, -0.5, 0.0))))
    ensures events != [] ==> forall i, j :: 0 <= i < j < |newBalls| ==> newBalls[i] != newBalls[j]
  {
    newBalls := balls;
    var spawned: seq<Ball> := [];
    for e := 0 to |events|
      invariant |spawned| == e
      invariant e == 0 ==>
                  newBalls == balls && scoreboard.score == old(scoreboard.score) && scoreboard.best == old(scoreboard.best)
      invariant e > 0 ==>
                  newBalls == spawned && scoreboard.best == Score.MaxNat(old(scoreboard.best), old(scoreboard.score))
      invariant e > 0 ==> scoreboard.score == 0
      invariant forall i :: 0 <= i < e ==> fresh(spawned[i])
      invariant forall i :: 0 <= i < e ==>
                  spawned[i].State() == BallState(SPAWN_POINT, Scale(410.0, geo.normalize(Vec3(0.5, -0.5, 0.0))))
      invariant forall i, j :: 0 <= i < j < e ==> spawned[i] != spawned[j]
    {
      // every event is a Start
      scoreboard.best := Score.MaxNat(scoreboard.best, scoreboard.score);
      scoreboard.score := 0;
      var ball := new Ball.Spawn(geo);
      spawned := spawned + [ball];
      newBalls := spawned;
    }
  }
}
