/** The scoreboard of the game: `start_system`, which keeps the best score, resets the
    current one and replaces the balls, and `hit_as_score`, which counts marked paddles. */
module Score {
  import opened Vectors
  import opened Collision
  import opened Wrappers
  import opened Balls

  /** The only game-state event. */
  datatype GameStateEvent = Start

  class Scoreboard {
    var score: nat
    var best: nat

    /** The resource inserted at start-up: both counters at 0. */
    constructor ()
      ensures score == 0 && best == 0
    {
      score := 0;
      best := 0;
    }
  }

  function MaxNat(a: nat, b: nat): (m: nat)
    ensures m >= a && m >= b && (m == a || m == b)
  {
    if a >= b then a else b
  }

  /** `start_system`: for every Start event of the frame, keep the larger of best and score
      as best, reset the score, despawn the balls that existed when the frame began and
      spawn a new ball. Spawns and despawns take effect together after the system, so each
      event adds its own ball: one event leaves exactly one ball. */
  method StartSystem(geo: Geometry, scoreboard: Scoreboard, balls: seq<Ball>, events: seq<GameStateEvent>)
    returns (newBalls: seq<Ball>)
    modifies scoreboard
    ensures scoreboard.best >= old(scoreboard.best)
    ensures events == [] ==>
              newBalls == balls && scoreboard.score == old(scoreboard.score) && scoreboard.best == old(scoreboard.best)
    ensures events != [] ==>
              scoreboard.best == MaxNat(old(scoreboard.best), old(scoreboard.score)) && scoreboard.score == 0
    ensures events != [] ==> |newBalls| == |events|
    ensures events != [] ==> forall i :: 0 <= i < |newBalls| ==> fresh(newBalls[i])
    ensures events != [] ==> forall i :: 0 <= i < |newBalls| ==>
              newBalls[i].State() == SpawnState(geo) && newBalls[i].radius == BALL_RADIUS
    ensures events != [] ==> forall i, j :: 0 <= i < j < |newBalls| ==> newBalls[i] != newBalls[j]
  {
    newBalls := balls;
    var spawned: seq<Ball> := [];
    for e := 0 to |events|
      invariant |spawned| == e
      invariant e == 0 ==>
                  newBalls == balls && scoreboard.score == old(scoreboard.score) && scoreboard.best == old(scoreboard.best)
      invariant e > 0 ==>
                  newBalls == spawned && scoreboard.best == MaxNat(old(scoreboard.best), old(scoreboard.score))
      invariant e > 0 ==> scoreboard.score == 0
      invariant forall i :: 0 <= i < e ==> fresh(spawned[i])
      invariant forall i :: 0 <= i < e ==> spawned[i].State() == SpawnState(geo) && spawned[i].radius == BALL_RADIUS
      invariant forall i, j :: 0 <= i < j < e ==> spawned[i] != spawned[j]
    {
      // every event is a Start
      scoreboard.best := MaxNat(scoreboard.best, scoreboard.score);
      scoreboard.score := 0;
      var ball := new Ball.Spawn(geo);
      spawned := spawned + [ball];
      newBalls := spawned;
    }
  }

  /** `hit_as_score`: one point per paddle that carries a marker. */
  method HitAsScore(scoreboard: Scoreboard, markers: seq<Option<Hit>>)
    modifies scoreboard
    ensures scoreboard.score == old(scoreboard.score) + CountHits(markers)
    ensures scoreboard.best == old(scoreboard.best)
  {
    for i := 0 to |markers|
      invariant scoreboard.score == old(scoreboard.score) + CountHits(markers[..i])
      invariant scoreboard.best == old(scoreboard.best)
    {
      assert markers[..i + 1][..i] == markers[..i];
      if markers[i].Some? {
        scoreboard.score := scoreboard.score + 1;
      }
    }
    assert markers[..|markers|] == markers;
  }
}
