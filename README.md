# Keep Inside — a Dafny model of the game logic

Keep Inside is a small arcade game: a ball travels in the ring between two circular
paddles, one outside and one inside, that the player turns around the arena centre. Every
time the ball meets a paddle it bounces, speeds up, and the player scores a point. A Start
event keeps the best score, resets the current one and puts a fresh ball into play.

This project models the game's logic over mathematical reals in place of `f32`, in Dafny:

- `angles.dfy` (`Angles`): `positive_angle` and the truncating float `%` it relies on, with
  `PI` the exact value of the `f32` constant.
- `vectors.dfy` (`Vectors`): three-component vectors and `reflect_2d`. Square root
  (`length`), `normalize` and `atan2` are supplied by the caller as a `Geometry` value.
- `paddle.dfy` (`Paddles`): the arc-shaped `Paddle` as a class whose `SetAngle` updates
  `angle_origin` and `angle_speed` in place, plus the two paddles of `setup`.
- `collision.dfy` (`Collision`): `find_ball_paddle_collision_point`, a swept test of the
  ball's distance from the centre against the near face of a paddle, gated by the arc.
- `ball.dfy` (`Balls`): the `Ball` class and `ball_movement_system`. Each method is proved
  against a pure frame function (`Bounce`, `BounceAll`, `BallFrame`).
- `score.dfy` (`Score`): the `Scoreboard` class, `start_system` and `hit_as_score`.
- `prototype.dfy` (`Prototype`): the earlier top-level version of the game. It has paddles
  placed by their transforms, a strict crossing test on the nominal radius, a
  squared-distance acceptance test, a velocity-vector ball that `compute_reflection`
  mirrors, and scoring inside the collision system.
- `wrappers.dfy` (`Wrappers`): the `Option` type.

The ECS (entity-component-system) scheduling of the game becomes explicit sequences of
objects processed in order. A paddle's `Hit` marker becomes an `Option<Hit>` per paddle,
returned by the movement system. The game queues its entity changes as commands that are
applied after the system has run. The model reflects this in three places:

- The markers of the last ball processed are the ones that stand.
- With no ball in play, the previous markers are kept.
- Each Start event of a frame spawns its own ball, because the despawn query only sees
  the balls that existed when the frame began.

Where the code behaves in ways a reader might not expect, the model follows the code:

- The arc gate compares `positive_angle(atan2(p))` with `angle_origin` by a plain absolute
  difference. There is no wrap-around at the 0/2π seam, so a paddle whose arc straddles
  the seam misses hits on one side of it (`Collision.ArcGateMissesAcrossSeam`).
- The crossing test is half-open: the face may equal the current distance but not the
  previous one (`Collision.Crosses`).
- `positive_angle` lands in `[0, 2π)` for every argument of at least `-2π`. Below that the
  truncating `%` gives a result in `(-2π, 0]`: negative in general
  (`Angles.PositiveAngleBelowRange`), 0 at whole turns. Every caller passes an `atan2`
  result, which is in range.
- `f32::signum` of a zero difference is `1`, so equal distances test the inner face. They
  can never cross it, so the result is still `None`.
- The collision point is `previous + normalize(current - previous) * ratio`. That is
  `ratio` units along the direction of travel, which puts it within one unit of the
  previous position whatever the frame's step (`Collision.CollisionPointOffset`). The
  prototype uses the share of radial travel left after the face as that length. Both are
  modelled as written.

## Model

| member | source | states |
|---|---|---|
| Angles.RemTwoPi | game/src/main.rs:505 | Rust's `%` by 2π truncates: the result is in `[0, 2π)` for a non-negative dividend and in `(-2π, 0]` for a negative one |
| Angles.RemTwoPiUnique | game/src/main.rs:505 | for a non-negative dividend the remainder is the unique value in `[0, 2π)` that differs from it by whole turns |
| Angles.PositiveAngle | game/src/main.rs:504-507 | the result is in `[0, 2π)` for every argument of at least -2π; below that it is in `(-2π, 0]` (0 at whole turns) |
| Angles.PositiveAngleOfHalfTurns | game/src/main.rs:504-507 | on every `atan2` result `a` in `[-π, π]` it returns `a` when `a >= 0` and `a + 2π` otherwise |
| Angles.PositiveAngleTests | game/src/main.rs:624-631 | the five cases of `test_positive_angle`: 0→0, 2π→0, π→π, -π→π, -π/2→3π/2 |
| Angles.PositiveAngleFixes | game/src/main.rs:504-507 | an angle already in `[0, 2π)` is returned unchanged |
| Angles.PositiveAnglePeriodic | game/src/main.rs:504-507 | adding whole turns does not change the result while both arguments stay at or above -2π |
| Angles.PositiveAngleBelowRange | game/src/main.rs:504-507 | below -2π the result is negative: -3π is mapped to -π |
| Vectors.Reflect2D | game/src/main.rs:555-558 | the reflected vector lies in the plane (z = 0) |
| Vectors.ReflectNormalComponent | game/src/main.rs:555-558 | for a unit normal the normal component is negated and the tangential one kept |
| Vectors.ReflectPreservesLength | game/src/main.rs:555-558 | for a unit normal the length in the plane is preserved |
| Vectors.ReflectInvolution | game/src/main.rs:555-558 | reflecting twice about the same unit normal gives back the planar part of the vector |
| Vectors.ReflectNormalItself | game/src/main.rs:555-558 | a unit normal reflected about itself is its opposite |
| Paddles.TurnDelta | game/src/main.rs:95-101 | the stored turn is the plain difference, or that difference minus or plus one full turn |
| Paddles.TurnDeltaBounded | game/src/main.rs:95-101 | between two normalised orientations the turn is within `[-π, π]` |
| Paddles.TurnDeltaShortest | game/src/main.rs:95-101 | no other whole-turn variant of the turn is shorter |
| Paddles.TurnDeltaReachesTarget | game/src/main.rs:90-102 | turning the previous orientation by the stored turn and normalising reaches the new orientation |
| Paddles.TurnDeltaAcrossSeam | game/src/main.rs:95-101 | turning from 0.1 to 2π - 0.1 goes the short way across the seam: -0.2 |
| Paddles.Paddle.constructor | game/src/main.rs:266-272 | a new paddle has half the arc and half the thickness it is built with, orientation 0 and no turn |
| Paddles.Paddle.SetAngle | game/src/main.rs:90-102 | `angle_origin` becomes `positive_angle(angle)`, `angle_speed` the shortest signed turn from the old orientation; the other fields are constants; normalised state is kept and the turn reaches the target |
| Paddles.SetupPaddles | game/src/main.rs:290-305 | two distinct new paddles: radius 285, thickness 12, arc π/6, then radius 108, thickness 4, arc π/6 |
| Collision.Signum | game/src/main.rs:479 | `f32::signum`: 1 for zero and positive values, -1 for negative ones |
| Collision.WithinArc | game/src/main.rs:494-500 | the linear gate accepts exactly the angles in `[angle_origin - half_surface_angle, angle_origin + half_surface_angle]`, with no wrap-around |
| Collision.ArcGateMissesAcrossSeam | game/src/main.rs:494-500 | a paddle at 0.1 spanning ±π/12 rejects a point whose `atan2` angle is -0.05, although that point is only 0.15 away around the circle |
| Collision.ImpactRatio | game/src/main.rs:491 | on a crossing the ratio is in `(0, 1]` and interpolating the distances by it lands exactly on the face |
| Collision.FindBallPaddleCollisionPoint | game/src/main.rs:471-502 | equal distances give no collision; a collision has ratio in `(0, 1]`, crosses the near face half-open and passes the linear arc gate |
| Collision.CollisionIff | game/src/main.rs:477-501 | a collision is reported if and only if the near face is crossed and the interpolated point passes the arc gate, and it then carries that point and ratio |
| Collision.CollisionFaceByDirection | game/src/main.rs:479-489 | moving outward only the inner face `radius_origin - half_height - radius` can be hit, moving inward only the outer face |
| Collision.CollisionPointOffset | game/src/main.rs:492-493 | with a unit `normalize`, the collision point lies exactly `ratio` from the previous position, so within one unit of it |
| Balls.Velocity | game/src/main.rs:131-133 | the speed is at least 410 for a non-negative speed tier |
| Balls.ClampDelta | game/src/main.rs:516 | the timestep is clamped to `[1/60, 1]` and equals the frame time inside that range |
| Balls.CountHits | game/src/main.rs:560-564 | the number of marked paddles is at most the number of paddles and is zero exactly when no paddle is marked |
| Balls.Bounce | game/src/main.rs:522-550 | a paddle is marked exactly when a collision is found; without one the ball is untouched; with one the marker holds the old direction and the speed tier rises by one |
| Balls.BounceAll | game/src/main.rs:521-551 | the paddle loop yields one marker slot per paddle |
| Balls.BallFrame | game/src/main.rs:518-551 | one marker slot per paddle; its meaning is stated by `FrameSpeedTier` and `FrameWithoutHits`, and `Ball.Move` is proved equal to it |
| Balls.BounceAllCountsHits | game/src/main.rs:546-547 | over the paddle loop the speed tier rises by exactly the number of markers |
| Balls.BounceAllWithoutHits | game/src/main.rs:521-551 | a paddle loop that marks nothing leaves the ball unchanged |
| Balls.FrameWithoutHits | game/src/main.rs:519-520 | a frame without a hit moves the ball by exactly `velocity * delta_seconds` along its unchanged direction at the same tier |
| Balls.FrameSpeedTier | game/src/main.rs:131-133 | over a frame the speed rises by exactly 10 per hit and never drops |
| Balls.BounceReflects | game/src/main.rs:536-546 | on a hit, with a unit mirror normal, the new direction has its normal component reversed, its tangential one kept and its length unchanged |
| Balls.MirrorWithoutSpin | game/src/main.rs:536-544 | a paddle that did not turn adds no spin: the mirror is the surface normal |
| Balls.MirrorLength | game/src/main.rs:539-545 | the spin term lengthens a unit surface normal to `sqrt(1 + speed_impact²)`, so the mirror is never zero and keeps the normal's height |
| Balls.BounceKeepsUnitDirection | game/src/main.rs:536-546 | with an exact `normalize`, a hit away from the centre keeps the direction a unit vector in the plane |
| Balls.BounceRemainingTravel | game/src/main.rs:548-549 | after a hit the ball sits `(1 - ratio) * velocity * delta_seconds` from the collision point, at the point's height |
| Balls.Ball.Spawn | game/src/main.rs:355-361 | a spawned ball is at `(10, -(285+108)/2, 1)`, heading along `normalize(0.5, -0.5, 0)`, at tier 0 and radius 5 |
| Balls.Ball.BounceOff | game/src/main.rs:522-550 | one paddle of the loop changes the ball and the marker exactly as `Bounce` |
| Balls.Ball.BounceOffAll | game/src/main.rs:521-551 | the paddle loop, every paddle in order from the same previous position, changes the ball and yields the markers exactly as `BounceAll` |
| Balls.Ball.Move | game/src/main.rs:518-551 | one ball's frame (advance, then every paddle in order from the pre-advance position) equals `BallFrame` |
| Balls.BallMovementSystem | game/src/main.rs:509-553 | every ball takes its own frame at the clamped timestep; the last ball's markers stand, and with no ball the old markers stay |
| Score.Scoreboard.constructor | game/src/main.rs:37 | the scoreboard starts with score and best both 0 |
| Score.MaxNat | game/src/main.rs:333 | `usize::max`: the larger of the two, no smaller than either |
| Score.StartSystem | game/src/main.rs:319-365 | without events nothing changes; otherwise best becomes `max(best, score)` and never decreases, score becomes 0, and one fresh ball in spawn state replaces the old balls per event |
| Score.HitAsScore | game/src/main.rs:560-564 | the score rises by exactly the number of marked paddles; best is untouched |
| Prototype.SetupPaddles | src/main.rs:176-190 | two paddles, the outer one first (larger radius); the values themselves (285 with half height 5 and half width 90, 108 with half height 2 and half width 20) are in the body, not the contract |
| Prototype.CollisionDistance | src/main.rs:371-379 | a collision distance exists exactly when the nominal radius lies strictly between the two distances; it is the inner face moving outward and the outer face moving inward |
| Prototype.FindCollisionPoint | src/main.rs:363-395 | a collision needs the nominal radius strictly between the two distances (equality at either end gives none) and a point within `half_width` of the paddle centre |
| Prototype.CollisionIff | src/main.rs:371-394 | a collision is reported if and only if the radius is crossed strictly and the point placed from face `radius - half_height` (outward) or `radius + half_height` (inward) is within `half_width` of the centre; it is then that point |
| Prototype.ClampDelta | src/main.rs:356 | the timestep is the frame time capped at 1 |
| Prototype.ComputeReflection | src/main.rs:433-437 | rotate by minus the angle, mirror across x, rotate back; the contract keeps the height, and `ComputeReflectionIsMirror` states what it computes |
| Prototype.ComputeReflectionIsMirror | src/main.rs:433-437 | with `cos² + sin² = 1`, rotate, mirror, rotate back is the mirror image `2 (p·u) u - p` across the axis `u` |
| Prototype.Collide | src/main.rs:405-420 | one paddle's turn: a hit exactly when a collision point is found; the ball is then put at that point, otherwise untouched |
| Prototype.CollideReflectsVelocity | src/main.rs:413-418 | when `cos`/`sin` of the point's angle give the unit vector toward the point, the new velocity is the old one mirrored about that normal: speed kept, radial component reversed |
| Prototype.ReflectionAboutOwnAxis | src/main.rs:416-418 | reflecting `collision_point - velocity` about the axis through the point and subtracting the point mirrors the velocity itself |
| Prototype.CollideAll | src/main.rs:405-421 | a ball scores at most one point per paddle |
| Prototype.CollideAllWithoutHits | src/main.rs:405-421 | a paddle loop that scores nothing leaves the ball unchanged |
| Prototype.TotalHits | src/main.rs:404-422 | the points of a frame, summed ball by ball; zero exactly when no ball's paddle loop accepts a collision |
| Prototype.TotalHitsBound | src/main.rs:404-422 | a frame scores at most one point per ball and paddle |
| Prototype.Ball.Spawn | src/main.rs:226-237 | a spawned ball is at the spawn point with velocity `410 * normalize(0.5, -0.5, 0)` |
| Prototype.Ball.Move | src/main.rs:358-360 | the ball moves by `velocity * min(1, delta)` and keeps its velocity |
| Prototype.Ball.Collisions | src/main.rs:404-422 | one ball's paddle loop from `translation - velocity * delta` equals `CollideAll`, hits included |
| Prototype.BallMovementSystem | src/main.rs:354-361 | every ball moves by its velocity times the capped frame time; velocities are unchanged |
| Prototype.BallCollisionSystem | src/main.rs:397-431 | every ball takes its paddle loop; the score rises by exactly the number of accepted collisions; best is untouched |
| Prototype.StartSystem | src/main.rs:204-241 | without events nothing changes; otherwise best becomes `max(best, score)`, score 0, and one fresh, distinct ball with velocity `410 * normalize(0.5, -0.5, 0)` per event |

## Left out

- Rendering and UI: `setup_ui`, `scoreboard_system` (text formatting), the path and mesh
  building of `add_paddle`, `update_paddle_transform`. These are presentation only.
- Input plumbing: the mouse and gamepad control systems, `find_mouse_position`,
  `gamepad_connection_system`, `start_control_system`. Their output enters the model only
  as the angle passed to `Paddle.SetAngle` and as a sequence of Start events.
- Cosmetic easing: `ImpactFx`, its `Lerp`, `hit_to_fx`, `update_paddle_fx`. These are
  animation only.
- `src/assets.rs`: an asset-handle cache, I/O only, and not compiled into the program.
- Floating point: rounding, NaN and infinities are not modelled; every operation is exact
  on the reals.
- `sqrt` (`length`), `normalize`, `atan2`, `cos` and `sin` are parameters (`Geometry`,
  `Prototype.Trig`). Properties that need them exact take that as a precondition
  (`NormalizesPlanar`, unit `normalize`, `cos² + sin² = 1`).
- Prototype: the paddle centre that `compute_matrix` produces is a field of `PlacedPaddle`
  supplied by the caller. The rotation inverse inside `compute_reflection` is the exact
  inverse rotation.
- Integer widths: `velocity_indicator` (`i32`) and `score`/`best` (`usize`) are unbounded,
  so overflow after billions of hits is not modelled.
- The ECS machinery (`Commands`, `Query`, events) becomes explicit sequences processed in
  a fixed order. Entity ids and despawning are represented by the sequence of balls a
  system returns.
- The clock: the frame time that `Time` reports is a parameter of the movement and
  collision systems.
