/** The ball of the game and `ball_movement_system`: each frame the ball advances along its
    direction, and every paddle in turn may reflect it, raise its speed tier and move it to
    the rest of the frame's travel from the collision point. */
module Balls {
  import opened Angles
  import opened Vectors
  import opened Paddles
  import opened Collision
  import opened Wrappers

  const BALL_RADIUS: real := 5.0
  const MIN_DELTA: real := 1.0 / 60.0
  /** Where `start_system` puts a new ball: between the two paddles, below the centre. */
  const SPAWN_POINT: Vec3 := Vec3(10.0, -(RADIUS_EXTERN + RADIUS_INTERN) / 2.0, 1.0)

  /** `Ball::velocity`: 410 plus 10 per speed tier. */
  function Velocity(indicator: int): (v: real)
    ensures indicator >= 0 ==> v >= 410.0
  {
    410.0 + 10.0 * indicator as real
  }

  /** `ball_movement_system`'s timestep: the frame time clamped to [1/60, 1] seconds. */
  function ClampDelta(raw: real): (dt: real)
    ensures MIN_DELTA <= dt <= 1.0
    ensures MIN_DELTA <= raw <= 1.0 ==> dt == raw
    ensures raw < MIN_DELTA ==> dt == MIN_DELTA
    ensures raw > 1.0 ==> dt == 1.0
  {
    Max(MIN_DELTA, Min(1.0, raw))
  }

  function Max(a: real, b: real): real { if a >= b then a else b }

  function Min(a: real, b: real): real { if a <= b then a else b }

  /** The marker a paddle receives when the ball hits it, with the ball's direction before
      the reflection. */
  datatype Hit = Hit(direction: Vec3)

  /** The ball's transform translation together with its `Ball` fields. */
  datatype BallState = BallState(translation: Vec3, mvtDir: Vec3, velocityIndicator: int)

  /** The number of paddles carrying a marker. */
  function CountHits(markers: seq<Option<Hit>>): (n: nat)
    ensures n <= |markers|
    ensures n == 0 <==> forall i :: 0 <= i < |markers| ==> markers[i].None?
  {
    if markers == [] then 0
    else CountHits(markers[..|markers| - 1]) + (if markers[|markers| - 1].Some? then 1 else 0)
  }

  /** The straight move of one frame: `velocity * delta_seconds` along `mvt_dir`. */
  function Advance(s: BallState, dt: real): BallState
  {
    s.(translation := Add(s.translation, Scale(Velocity(s.velocityIndicator) * dt, s.mvtDir)))
  }

  /** `speed_impact`: the paddle's last turn per frame, as turns per second. */
  function SpeedImpact(angleSpeed: real, dt: real): real
    requires dt > 0.0
  {
    1.0 * angleSpeed / (dt * 2.0 * PI)
  }

  /** `mirror`: the surface normal plus the normal turned a quarter turn, scaled by the spin. */
  function Mirror(normal: Vec3, speedImpact: real): Vec3
  {
    Add(normal, Vec3(-normal.y * speedImpact, normal.x * speedImpact, 0.0))
  }

  /** `normal_surface`: the direction from the collision point back to the arena centre. */
  function SurfaceNormal(geo: Geometry, collisionPoint: Vec3): Vec3
  {
    geo.normalize(Vec3(-collisionPoint.x, -collisionPoint.y, 0.0))
  }

  /** The unit vector the ball is reflected about: `mirror.normalize()`. */
  function ReflectionNormal(geo: Geometry, collisionPoint: Vec3, angleSpeed: real, dt: real): Vec3
    requires dt > 0.0
  {
    geo.normalize(Mirror(SurfaceNormal(geo, collisionPoint), SpeedImpact(angleSpeed, dt)))
  }

  /** One paddle's turn in the frame loop: on a collision the direction is reflected, the
      speed tier goes up by one, the ball is put `(1 - ratio)` of the frame's travel past
      the collision point, and the paddle is marked with the old direction. */
  function Bounce(geo: Geometry, s: BallState, radius: real, previous: Vec3, paddle: PaddleView, dt: real)
    : (r: (BallState, Option<Hit>))
    requires dt > 0.0
    ensures r.1.Some? <==> FindBallPaddleCollisionPoint(geo, s.translation, previous, radius, paddle).Some?
    ensures r.1.None? ==> r.0 == s
    ensures r.1.Some? ==> r.1.value.direction == s.mvtDir && r.0.velocityIndicator == s.velocityIndicator + 1
  {
    match FindBallPaddleCollisionPoint(geo, s.translation, previous, radius, paddle)
    case None => (s, None)
    case Some((collisionPoint, ratio)) =>
      var mvtDir := Reflect2D(s.mvtDir, ReflectionNormal(geo, collisionPoint, paddle.angleSpeed, dt));
      var indicator := s.velocityIndicator + 1;
      var translation := Add(collisionPoint, Scale((1.0 - ratio) * (Velocity(indicator) * dt), mvtDir));
      (BallState(translation, mvtDir, indicator), Some(Hit(s.mvtDir)))
  }

  /** The paddle loop: each paddle in order sees the ball as the paddles before it left it,
      and the same previous position. */
  function BounceAll(geo: Geometry, s: BallState, radius: real, previous: Vec3, paddles: seq<PaddleView>, dt: real)
    : (r: (BallState, seq<Option<Hit>>))
    requires dt > 0.0
    ensures |r.1| == |paddles|
    decreases |paddles|
  {
    if paddles == [] then (s, [])
    else
      var (s1, markers) := BounceAll(geo, s, radius, previous, paddles[..|paddles| - 1], dt);
      var (s2, marker) := Bounce(geo, s1, radius, previous, paddles[|paddles| - 1], dt);
      (s2, markers + [marker])
  }

  /** One ball's frame: advance, then the paddle loop from the position before the advance. */
  function BallFrame(geo: Geometry, s: BallState, radius: real, paddles: seq<PaddleView>, dt: real)
    : (r: (BallState, seq<Option<Hit>>))
    requires dt > 0.0
    ensures |r.1| == |paddles|
  {
    BounceAll(geo, Advance(s, dt), radius, s.translation, paddles, dt)
  }

  /** One more paddle at the end of the loop: its turn comes after all the others. */
  lemma BounceAllSnoc(geo: Geometry, s: BallState, radius: real, previous: Vec3, paddles: seq<PaddleView>, paddle: PaddleView, dt: real)
    requires dt > 0.0
    ensures
      var r := BounceAll(geo, s, radius, previous, paddles, dt);
      var b := Bounce(geo, r.0, radius, previous, paddle, dt);
      BounceAll(geo, s, radius, previous, paddles + [paddle], dt) == (b.0, r.1 + [b.1])
  {
    assert (paddles + [paddle])[..|paddles|] == paddles;
  }

  /** Every marker of the paddle loop stands for exactly one step of the speed tier. */
  lemma {:induction false} BounceAllCountsHits(geo: Geometry, s: BallState, radius: real, previous: Vec3, paddles: seq<PaddleView>, dt: real)
    requires dt > 0.0
    ensures
      var r := BounceAll(geo, s, radius, previous, paddles, dt);
      r.0.velocityIndicator == s.velocityIndicator + CountHits(r.1)
    decreases |paddles|
  {
    if paddles != [] {
      var r := BounceAll(geo, s, radius, previous, paddles, dt);
      var init := paddles[..|paddles| - 1];
      BounceAllCountsHits(geo, s, radius, previous, init, dt);
      var r1 := BounceAll(geo, s, radius, previous, init, dt);
      assert r.1[..|r.1| - 1] == r1.1;
    }
  }

  /** Without a marker the paddle loop leaves the ball as it found it. */
  lemma {:induction false} BounceAllWithoutHits(geo: Geometry, s: BallState, radius: real, previous: Vec3, paddles: seq<PaddleView>, dt: real)
    requires dt > 0.0
    requires CountHits(BounceAll(geo, s, radius, previous, paddles, dt).1) == 0
    ensures BounceAll(geo, s, radius, previous, paddles, dt).0 == s
    decreases |paddles|
  {
    if paddles != [] {
      var r := BounceAll(geo, s, radius, previous, paddles, dt);
      var init := paddles[..|paddles| - 1];
      var r1 := BounceAll(geo, s, radius, previous, init, dt);
      assert r.1[..|r.1| - 1] == r1.1;
      BounceAllWithoutHits(geo, s, radius, previous, init, dt);
    }
  }

  /** A frame without a hit moves the ball by exactly `velocity * delta_seconds` along its
      unchanged direction and keeps its speed tier. */
  lemma FrameWithoutHits(geo: Geometry, s: BallState, radius: real, paddles: seq<PaddleView>, dt: real)
    requires dt > 0.0
    requires CountHits(BallFrame(geo, s, radius, paddles, dt).1) == 0
    ensures
      var s' := BallFrame(geo, s, radius, paddles, dt).0;
      s'.translation == Add(s.translation, Scale(Velocity(s.velocityIndicator) * dt, s.mvtDir))
      && s'.mvtDir == s.mvtDir && s'.velocityIndicator == s.velocityIndicator
  {
    BounceAllWithoutHits(geo, Advance(s, dt), radius, s.translation, paddles, dt);
  }

  /** Over a frame the speed tier rises by the number of hits, so the speed never drops:
      it gains exactly 10 per hit. */
  lemma FrameSpeedTier(geo: Geometry, s: BallState, radius: real, paddles: seq<PaddleView>, dt: real)
    requires dt > 0.0
    ensures
      var r := BallFrame(geo, s, radius, paddles, dt);
      r.0.velocityIndicator == s.velocityIndicator + CountHits(r.1)
      && Velocity(r.0.velocityIndicator) == Velocity(s.velocityIndicator) + 10.0 * CountHits(r.1) as real
      && Velocity(r.0.velocityIndicator) >= Velocity(s.velocityIndicator)
  {
    BounceAllCountsHits(geo, Advance(s, dt), radius, s.translation, paddles, dt);
  }

  /** On a hit the new direction is the old one reflected about the mirror normal: when that
      normal has unit length, the normal component is reversed, the tangential one kept and
      the length in the plane unchanged. */
  lemma BounceReflects(geo: Geometry, s: BallState, radius: real, previous: Vec3, paddle: PaddleView, dt: real)
    requires dt > 0.0
    requires FindBallPaddleCollisionPoint(geo, s.translation, previous, radius, paddle).Some?
    requires Norm2(ReflectionNormal(geo, FindBallPaddleCollisionPoint(geo, s.translation, previous, radius, paddle).value.0, paddle.angleSpeed, dt)) == 1.0
    ensures
      var collisionPoint := FindBallPaddleCollisionPoint(geo, s.translation, previous, radius, paddle).value.0;
      var n := ReflectionNormal(geo, collisionPoint, paddle.angleSpeed, dt);
      var dir := Bounce(geo, s, radius, previous, paddle, dt).0.mvtDir;
      Dot2(dir, n) == -Dot2(s.mvtDir, n)
      && Dot2(dir, Vec3(-n.y, n.x, 0.0)) == Dot2(s.mvtDir, Vec3(-n.y, n.x, 0.0))
      && Norm2(dir) == Norm2(s.mvtDir)
  {
    var collisionPoint := FindBallPaddleCollisionPoint(geo, s.translation, previous, radius, paddle).value.0;
    var n := ReflectionNormal(geo, collisionPoint, paddle.angleSpeed, dt);
    ReflectNormalComponent(s.mvtDir, n);
    ReflectPreservesLength(s.mvtDir, n);
  }

  /** A paddle that did not turn adds no spin: the mirror is the surface normal itself. */
  lemma MirrorWithoutSpin(geo: Geometry, collisionPoint: Vec3, dt: real)
    requires dt > 0.0
    ensures SpeedImpact(0.0, dt) == 0.0
    ensures ReflectionNormal(geo, collisionPoint, 0.0, dt) == geo.normalize(SurfaceNormal(geo, collisionPoint))
  {
    var normal := SurfaceNormal(geo, collisionPoint);
    assert Mirror(normal, 0.0) == normal;
  }

  /** `normalize` gives a unit vector in the plane for every non-zero vector in the plane. */
  ghost predicate NormalizesPlanar(geo: Geometry)
  {
    forall v: Vec3 :: v.z == 0.0 && Norm2(v) > 0.0 ==> Unit2D(geo.normalize(v))
  }

  /** Adding the quarter-turned normal scaled by `k` lengthens a unit normal to
      `sqrt(1 + k²)`, so the mirror is never zero. */
  lemma MirrorLength(normal: Vec3, k: real)
    requires Norm2(normal) == 1.0
    ensures Norm2(Mirror(normal, k)) == 1.0 + k * k
    ensures Mirror(normal, k).z == normal.z
  {
    var a, b := normal.x, normal.y;
    calc {
      Norm2(Mirror(normal, k));
      (a - b * k) * (a - b * k) + (b + a * k) * (b + a * k);
      (a * a + b * b) * (1.0 + k * k);
    }
  }

  /** With an exact `normalize`, a hit away from the centre keeps the direction a unit
      vector in the plane, whatever the spin. */
  lemma BounceKeepsUnitDirection(geo: Geometry, s: BallState, radius: real, previous: Vec3, paddle: PaddleView, dt: real)
    requires dt > 0.0 && NormalizesPlanar(geo) && Unit2D(s.mvtDir)
    requires FindBallPaddleCollisionPoint(geo, s.translation, previous, radius, paddle).Some?
    requires Norm2(FindBallPaddleCollisionPoint(geo, s.translation, previous, radius, paddle).value.0) > 0.0
    ensures Unit2D(Bounce(geo, s, radius, previous, paddle, dt).0.mvtDir)
  {
    var cp := FindBallPaddleCollisionPoint(geo, s.translation, previous, radius, paddle).value.0;
    var toCentre := Vec3(-cp.x, -cp.y, 0.0);
    assert Norm2(toCentre) == Norm2(cp);
    var normal := SurfaceNormal(geo, cp);
    assert Unit2D(normal);
    var k := SpeedImpact(paddle.angleSpeed, dt);
    MirrorLength(normal, k);
    var n := ReflectionNormal(geo, cp, paddle.angleSpeed, dt);
    assert Unit2D(n);
    ReflectPreservesLength(s.mvtDir, n);
  }

  /** After a hit the ball sits `(1 - ratio) * velocity * delta_seconds` from the collision
      point along its new direction: the rest of the frame's travel at the new speed. */
  lemma BounceRemainingTravel(geo: Geometry, s: BallState, radius: real, previous: Vec3, paddle: PaddleView, dt: real)
    requires dt > 0.0
    requires FindBallPaddleCollisionPoint(geo, s.translation, previous, radius, paddle).Some?
    requires s.velocityIndicator >= 0
    requires Unit2D(Bounce(geo, s, radius, previous, paddle, dt).0.mvtDir)
    ensures
      var c := FindBallPaddleCollisionPoint(geo, s.translation, previous, radius, paddle).value;
      var s' := Bounce(geo, s, radius, previous, paddle, dt).0;
      var travel := (1.0 - c.1) * (Velocity(s.velocityIndicator + 1) * dt);
      travel >= 0.0 && s'.translation.z == c.0.z && Norm2(Sub(s'.translation, c.0)) == travel * travel
  {
    var c := FindBallPaddleCollisionPoint(geo, s.translation, previous, radius, paddle).value;
    var s' := Bounce(geo, s, radius, previous, paddle, dt).0;
    var travel := (1.0 - c.1) * (Velocity(s.velocityIndicator + 1) * dt);
    var u := s'.mvtDir;
    assert Velocity(s.velocityIndicator + 1) * dt > 0.0;
    assert travel >= 0.0;
    assert Sub(s'.translation, c.0) == Scale(travel, u);
    calc {
      Norm2(Scale(travel, u));
      travel * u.x * (travel * u.x) + travel * u.y * (travel * u.y);
      travel * travel * Norm2(u);
      travel * travel;
    }
  }

  /** The paddles' current fields, in order. */
  function Views(paddles: seq<Paddle>): (vs: seq<PaddleView>)
    reads set p | p in paddles
    ensures |vs| == |paddles|
    ensures forall i :: 0 <= i < |paddles| ==> vs[i] == paddles[i].View()
  {
    if paddles == [] then [] else Views(paddles[..|paddles| - 1]) + [paddles[|paddles| - 1].View()]
  }

  /** The spawn state: the spawn point, direction `(0.5, -0.5, 0).normalize()`, tier 0. */
  function SpawnState(geo: Geometry): BallState
  {
    BallState(SPAWN_POINT, geo.normalize(Vec3(0.5, -0.5, 0.0)), 0)
  }

  class Ball {
    var translation: Vec3
    var mvtDir: Vec3
    var velocityIndicator: int
    const radius: real

    function State(): BallState
      reads this
    {
      BallState(translation, mvtDir, velocityIndicator)
    }

    /** The ball `start_system` spawns. */
    constructor Spawn(geo: Geometry)
      ensures State() == SpawnState(geo) && radius == BALL_RADIUS
    {
      translation := SPAWN_POINT;
      mvtDir := geo.normalize(Vec3(0.5, -0.5, 0.0));
      velocityIndicator := 0;
      radius := BALL_RADIUS;
    }

    /** One paddle of the inner loop: test for a collision and, on one, mark the paddle,
        reflect the direction, raise the speed tier and reposition the ball. */
    method BounceOff(geo: Geometry, paddle: PaddleView, previous: Vec3, dt: real) returns (marker: Option<Hit>)
      requires dt > 0.0
      modifies this
      ensures (State(), marker) == Bounce(geo, old(State()), radius, previous, paddle, dt)
    {
      marker := None;
      ghost var s := State();
      var collision := FindBallPaddleCollisionPoint(geo, translation, previous, radius, paddle);
      if collision.Some? {
        var (collisionPoint, ratio) := collision.value;
        assert collision == Some((collisionPoint, ratio));
        marker := Some(Hit(mvtDir));
        var normalSurface := SurfaceNormal(geo, collisionPoint);
        var speedImpact := SpeedImpact(paddle.angleSpeed, dt);
        var mirror := Mirror(normalSurface, speedImpact);
        mvtDir := Reflect2D(mvtDir, geo.normalize(mirror));
        velocityIndicator := velocityIndicator + 1;
        translation := Add(collisionPoint, Scale((1.0 - ratio) * (Velocity(velocityIndicator) * dt), mvtDir));
        ghost var expected := Bounce(geo, s, radius, previous, paddle, dt).0;
        assert mvtDir == expected.mvtDir && velocityIndicator == expected.velocityIndicator;
        assert translation == expected.translation;
      }
    }

    /** The inner loop of `ball_movement_system`: every paddle in order, each against the
        same previous position; returns each paddle's marker. */
    method BounceOffAll(geo: Geometry, views: seq<PaddleView>, previous: Vec3, dt: real) returns (markers: seq<Option<Hit>>)
      requires dt > 0.0
      modifies this
      ensures State() == BounceAll(geo, old(State()), radius, previous, views, dt).0
      ensures markers == BounceAll(geo, old(State()), radius, previous, views, dt).1
    {
      markers := [];
      assert views[..0] == [];
      for i := 0 to |views|
        invariant State() == BounceAll(geo, old(State()), radius, previous, views[..i], dt).0
        invariant markers == BounceAll(geo, old(State()), radius, previous, views[..i], dt).1
      {
        var marker := BounceOff(geo, views[i], previous, dt);
        BounceAllSnoc(geo, old(State()), radius, previous, views[..i], views[i], dt);
        assert views[..i + 1] == views[..i] + [views[i]];
        markers := markers + [marker];
      }
      assert views[..|views|] == views;
    }

    /** The body of `ball_movement_system` for this ball: advance, then test and bounce
        against every paddle in order; returns each paddle's marker. */
    method Move(geo: Geometry, paddles: seq<Paddle>, dt: real) returns (markers: seq<Option<Hit>>)
      requires dt > 0.0
      modifies this
      ensures (State(), markers) == BallFrame(geo, old(State()), radius, Views(paddles), dt)
    {
      var views := Views(paddles);
      var previous := translation;
      translation := Add(translation, Scale(Velocity(velocityIndicator) * dt, mvtDir));
      assert State() == Advance(old(State()), dt);
      markers := BounceOffAll(geo, views, previous, dt);
      assert Views(paddles) == views;
    }
  }

  /** `ball_movement_system`: clamp the frame time, then move every ball in order. Markers
      are removed and re-added per ball, so the last ball's markers stand; with no ball the
      previous markers stay. */
  method BallMovementSystem(geo: Geometry, balls: seq<Ball>, paddles: seq<Paddle>, rawDelta: real, markers: seq<Option<Hit>>)
    returns (newMarkers: seq<Option<Hit>>)
    requires forall i, j :: 0 <= i < j < |balls| ==> balls[i] != balls[j]
    modifies set b | b in balls
    ensures forall i :: 0 <= i < |balls| ==>
      balls[i].State() == BallFrame(geo, old(balls[i].State()), balls[i].radius, Views(paddles), ClampDelta(rawDelta)).0
    ensures balls == [] ==> newMarkers == markers
    ensures balls != [] ==>
      newMarkers == BallFrame(geo, old(balls[|balls| - 1].State()), balls[|balls| - 1].radius, Views(paddles), ClampDelta(rawDelta)).1
  {
    var deltaSeconds := ClampDelta(rawDelta);
    newMarkers := markers;
    for i := 0 to |balls|
      invariant forall j :: 0 <= j < i ==>
        balls[j].State() == BallFrame(geo, old(balls[j].State()), balls[j].radius, Views(paddles), deltaSeconds).0
      invariant forall j :: i <= j < |balls| ==> balls[j].State() == old(balls[j].State())
      invariant i == 0 ==> newMarkers == markers
      invariant i > 0 ==>
        newMarkers == BallFrame(geo, old(balls[i - 1].State()), balls[i - 1].radius, Views(paddles), deltaSeconds).1
    {
      newMarkers := balls[i].Move(geo, paddles, deltaSeconds);
    }
  }
}
