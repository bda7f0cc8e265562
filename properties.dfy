/** Properties of the runner game's state machine: the jump arc, the obstacle
    cycle, the score, collisions, and the mode transitions, together with an
    invariant that every reachable state keeps. */
module RunnerProperties {
  import opened Geometry
  import opened Runner

  // ---------------------------------------------------------------------------
  // Events and the frame physics

  /** A Space while grounded starts a jump with the fixed upward velocity, and a
      further Space in the same batch changes nothing. */
  lemma JumpStartsOnlyWhenGrounded(s: GameState, events: seq<Event>)
    requires s.mode == Playing && Quit !in events
    ensures !s.playerJump && KeyDown(Space) in events ==>
      PlayingEvents(s, events) == s.(playerJump := true, yVelocity := JumpVelocity)
    ensures s.playerJump ==> PlayingEvents(s, events) == s
    ensures KeyDown(Space) !in events ==> PlayingEvents(s, events) == s
  {
  }

  /** A frame with the player grounded and no Space press leaves the player's
      height and velocity alone; in particular the velocity is not reset. */
  lemma GroundedFrame(s: GameState, events: seq<Event>)
    requires s.mode == Playing && !s.playerJump
    requires Quit !in events && KeyDown(Space) !in events
    ensures PlayingFrame(s, events).playerY == s.playerY
    ensures PlayingFrame(s, events).yVelocity == s.yVelocity
    ensures !PlayingFrame(s, events).playerJump
  {
  }

  /** An airborne frame moves the player by the velocity it started with, adds
      exactly the gravity constant to the velocity, and lands exactly on the
      ground when the new height reaches it. Space presses are ignored. */
  lemma AirborneFrame(s: GameState, events: seq<Event>)
    requires s.mode == Playing && s.playerJump && Quit !in events
    ensures PlayingFrame(s, events).yVelocity == s.yVelocity + Gravity
    ensures s.playerY + s.yVelocity >= Ground ==>
      PlayingFrame(s, events).playerY == Ground && !PlayingFrame(s, events).playerJump
    ensures s.playerY + s.yVelocity < Ground ==>
      PlayingFrame(s, events).playerY == s.playerY + s.yVelocity && PlayingFrame(s, events).playerJump
  {
  }

  // ---------------------------------------------------------------------------
  // The jump arc

  /** Height and velocity k airborne steps after a jump starts from the ground. */
  function ArcY(k: int): (y: real) {
    Ground + (k as real) * JumpVelocity + ((k * (k - 1)) as real) * Gravity / 2.0
  }

  function ArcV(k: int): (v: real) {
    JumpVelocity + (k as real) * Gravity
  }

  /** The number of airborne steps after which a jump lands. */
  const LandingStep: int := 41

  lemma ArcStep(k: int)
    ensures ArcY(k) + ArcV(k) == ArcY(k + 1)
    ensures ArcV(k) + Gravity == ArcV(k + 1)
  {
  }

  /** Between the start and the landing the player is above the ground. */
  lemma ArcAboveGround(k: int)
    requires 1 <= k < LandingStep
    ensures ArcY(k) < Ground
  {
  }

  /** The player never rises above height 195, and reaches it. */
  lemma ArcLowest(k: int)
    ensures ArcY(k) >= 195.0
    ensures ArcY(20) == 195.0
  {
    assert k * (k - 1) == (k - 20) * (k - 21) + 40 * k - 420;
    if k <= 20 {
      assert (k - 20) * (k - 21) == (20 - k) * (21 - k);
    }
    assert (k - 20) * (k - 21) >= 0;
  }

  /** The arc rises (the height decreases) for its first 20 steps, is level
      between steps 20 and 21, and falls afterwards. */
  lemma ArcRisesThenFalls(k: int)
    ensures k < 20 ==> ArcY(k + 1) < ArcY(k)
    ensures ArcY(21) == ArcY(20)
    ensures k > 20 ==> ArcY(k + 1) > ArcY(k)
  {
  }

  /** The jump meets the ground exactly, with no overshoot. */
  lemma ArcLands()
    ensures ArcY(LandingStep) == Ground
    ensures ArcV(LandingStep) == 10.5
  {
  }

  /** The jump physics applied n times. */
  function JumpSteps(s: GameState, n: nat): (r: GameState) {
    if n == 0 then s else JumpStep(JumpSteps(s, n - 1))
  }

  /** A jump launched from the ground, with no further input, stays airborne
      for 40 steps on the arc, never higher than 195. */
  lemma {:induction false} SingleJumpAirborne(s: GameState, n: nat)
    requires s.playerJump && s.playerY == Ground && s.yVelocity == JumpVelocity
    requires n < LandingStep
    ensures JumpSteps(s, n) == s.(playerY := ArcY(n), yVelocity := ArcV(n))
    ensures 195.0 <= JumpSteps(s, n).playerY <= Ground
  {
    if n > 0 {
      SingleJumpAirborne(s, n - 1);
      ArcStep(n - 1);
      ArcAboveGround(n);
    }
    ArcLowest(n);
  }

  /** ... and lands at exactly the ground on step 41, keeping its velocity. */
  lemma SingleJumpLands(s: GameState)
    requires s.playerJump && s.playerY == Ground && s.yVelocity == JumpVelocity
    ensures JumpSteps(s, LandingStep) == s.(playerY := Ground, yVelocity := 10.5, playerJump := false)
  {
    SingleJumpAirborne(s, 40);
    ArcStep(40);
    ArcLands();
  }

  /** A frame whose batch holds a Space press (with any other keys, or several
      presses) and no Quit, from the ground: the jump starts and takes its
      first step, whether or not the frame collides. */
  lemma LaunchFrame(s: GameState, events: seq<Event>)
    requires s.mode == Playing && !s.playerJump && s.playerY == Ground
    requires Quit !in events && KeyDown(Space) in events
    ensures var r := Frame(s, events);
      r.playerY == ArcY(1) && r.yVelocity == ArcV(1) && r.playerJump
  {
    JumpStartsOnlyWhenGrounded(s, events);
  }

  /** A frame without input while on the arc takes the next step of the arc,
      whether or not it collides. */
  lemma ArcFrame(p: GameState, k: int)
    requires p.mode == Playing && p.playerJump
    requires 1 <= k < LandingStep && p.playerY == ArcY(k) && p.yVelocity == ArcV(k)
    ensures var r := Frame(p, []);
      r.yVelocity == ArcV(k + 1) && r.playerJump == (k + 1 < LandingStep) &&
      r.playerY == (if k + 1 < LandingStep then ArcY(k + 1) else Ground)
  {
    ArcStep(k);
    if k + 1 < LandingStep { ArcAboveGround(k + 1); } else { ArcLands(); }
  }

  /** The same arc in whole frames: one Space batch from the ground and then
      empty batches. While the round is still being played (no collision has
      happened; a lost round waits forever without input), the player is on
      the arc for 40 frames and lands at exactly the ground on frame 41. */
  lemma {:induction false} SingleJumpFrames(s: GameState, n: nat)
    requires s.mode == Playing && !s.playerJump && s.playerY == Ground
    requires n < LandingStep
    ensures var r := RunFrames(s, [[KeyDown(Space)]] + Idle(n));
      r.mode == Playing ==>
        r.yVelocity == ArcV(n + 1) && r.playerJump == (n + 1 < LandingStep) &&
        r.playerY == (if n + 1 < LandingStep then ArcY(n + 1) else Ground)
  {
    var b := [[KeyDown(Space)]] + Idle(n);
    assert RunFrames(s, b) == Frame(RunFrames(s, b[..n]), b[n]);
    if n == 0 {
      assert b[..0] == [] && b[0] == [KeyDown(Space)];
      LaunchFrame(s, [KeyDown(Space)]);
    } else {
      assert b[..n] == [[KeyDown(Space)]] + Idle(n - 1) && b[n] == [];
      SingleJumpFrames(s, n - 1);
      var p := RunFrames(s, b[..n]);
      if p.mode == Playing {
        ArcFrame(p, n);
      }
    }
  }

  // ---------------------------------------------------------------------------
  // The invariant of reachable states

  /** The player is somewhere on the arc of a jump started from the ground. */
  ghost predicate OnArc(y: real, v: real) {
    exists k :: 0 <= k < LandingStep && y == ArcY(k) && v == ArcV(k)
  }

  ghost predicate Inv(s: GameState) {
    && (s.playerJump ==> OnArc(s.playerY, s.yVelocity))
    && (!s.playerJump ==> s.playerY == Ground)
    && -ObstacleWidth <= s.obstacleX <= Width
    && s.obstacleX % ObstacleSpeed == 0
  }

  lemma InvBounds(s: GameState)
    requires Inv(s)
    ensures 195.0 <= s.playerY <= Ground
    ensures -ObstacleWidth <= s.obstacleX <= Width && s.obstacleX % ObstacleSpeed == 0
  {
  }

  lemma InitialInv()
    ensures Inv(Initial())
  {
  }

  lemma JumpStepInv(s: GameState)
    requires s.playerJump ==> OnArc(s.playerY, s.yVelocity)
    requires !s.playerJump ==> s.playerY == Ground
    ensures JumpStep(s).playerJump ==> OnArc(JumpStep(s).playerY, JumpStep(s).yVelocity)
    ensures !JumpStep(s).playerJump ==> JumpStep(s).playerY == Ground
  {
    if s.playerJump {
      var k :| 0 <= k < LandingStep && s.playerY == ArcY(k) && s.yVelocity == ArcV(k);
      ArcStep(k);
      if k + 1 < LandingStep {
        ArcAboveGround(k + 1);
        assert JumpStep(s).playerY == ArcY(k + 1) && JumpStep(s).yVelocity == ArcV(k + 1);
      } else {
        ArcLands();
      }
    }
  }

  /** Every frame keeps the invariant, whatever its events. */
  lemma FrameInv(s: GameState, events: seq<Event>)
    requires Inv(s)
    ensures Inv(Frame(s, events))
  {
    if s.mode == Playing {
      var e := PlayingEvents(s, events);
      if e.playerJump && !s.playerJump {
        assert e.playerY == ArcY(0) && e.yVelocity == ArcV(0);
      }
      assert Inv(e);
      if e.mode != Terminated {
        JumpStepInv(e);
      }
    }
  }

  /** Every state reachable from the initial one keeps the invariant, so the
      player stays between heights 195 and 300 and the obstacle on the
      5-pixel grid between -40 and 800. */
  lemma {:induction false} RunFramesInv(batches: seq<seq<Event>>)
    ensures Inv(RunFrames(Initial(), batches))
    ensures 195.0 <= RunFrames(Initial(), batches).playerY <= Ground
    ensures -ObstacleWidth <= RunFrames(Initial(), batches).obstacleX <= Width
    ensures RunFrames(Initial(), batches).obstacleX % ObstacleSpeed == 0
    decreases |batches|
  {
    if batches != [] {
      RunFramesInv(batches[..|batches| - 1]);
      FrameInv(RunFrames(Initial(), batches[..|batches| - 1]), batches[|batches| - 1]);
    }
    InvBounds(RunFrames(Initial(), batches));
  }

  // ---------------------------------------------------------------------------
  // Obstacle and score

  /** The number of frames between two wraps of the obstacle. */
  const CyclePeriod: int := (Width + ObstacleWidth) / ObstacleSpeed + 1

  /** The obstacle motion applied n times. */
  function ObstacleSteps(s: GameState, n: nat): (r: GameState) {
    if n == 0 then s else ObstacleStep(ObstacleSteps(s, n - 1))
  }

  /** From the right edge the obstacle cycles with period 169 frames, scoring
      one point per cycle. */
  lemma {:induction false} ObstacleCycle(s: GameState, n: nat)
    requires s.obstacleX == Width
    ensures CyclePeriod == 169
    ensures ObstacleSteps(s, n).obstacleX == Width - ObstacleSpeed * (n % CyclePeriod)
    ensures ObstacleSteps(s, n).score == s.score + n / CyclePeriod
  {
    if n > 0 {
      ObstacleCycle(s, n - 1);
      var m := n - 1;
      if m % 169 == 168 {
        assert n % 169 == 0 && n / 169 == m / 169 + 1;
      } else {
        assert n % 169 == m % 169 + 1 && n / 169 == m / 169;
      }
    }
  }

  /** On a reachable state, a frame scores exactly when the obstacle is at its
      leftmost position -40, and then it reappears at the right edge. */
  lemma WrapScores(s: GameState, events: seq<Event>)
    requires Inv(s) && s.mode == Playing && Quit !in events
    ensures PlayingFrame(s, events).score == s.score + 1 <==> s.obstacleX == -ObstacleWidth
    ensures PlayingFrame(s, events).score != s.score + 1 ==> PlayingFrame(s, events).score == s.score
    ensures s.obstacleX == -ObstacleWidth ==> PlayingFrame(s, events).obstacleX == Width
  {
  }

  // ---------------------------------------------------------------------------
  // Collisions

  /** The collision test depends only on the two boxes. */
  lemma CollidesDependsOnBoxes(s: GameState, t: GameState)
    requires PlayerRect(s) == PlayerRect(t) && ObstacleRect(s) == ObstacleRect(t)
    ensures Collides(s) == Collides(t)
  {
  }

  /** On a reachable state, the player and the obstacle collide exactly when
      the obstacle is strictly between x = 60 and x = 140 and the player's
      box reaches below height 260. */
  lemma CollidesReachable(s: GameState)
    requires Inv(s)
    ensures Collides(s) <==> 60 < s.obstacleX < 140 && s.playerY >= 261.0
  {
    InvBounds(s);
    var y := Trunc(s.playerY);
    assert y <= 300;
    assert y > 260 <==> s.playerY >= 261.0;
  }

  // ---------------------------------------------------------------------------
  // Mode transitions

  /** Every restart restores the same initial state, whatever happened before. */
  lemma RestartIsIdentical(s1: GameState, e1: seq<Event>, s2: GameState, e2: seq<Event>)
    requires s1.mode == Lost && s2.mode == Lost
    requires forall i :: 0 <= i < |e1| ==> !Exits(e1[i])
    requires forall i :: 0 <= i < |e2| ==> !Exits(e2[i])
    requires KeyDown(KeyY) in e1 && KeyDown(KeyY) in e2
    ensures LostFrame(s1, e1) == LostFrame(s2, e2) == Initial()
    ensures Initial().playerY == 300.0 && Initial().obstacleX == 800 && Initial().score == 0
  {
  }

  /** In the lost mode an N or Quit exits even after a Y of the same batch. */
  lemma ExitWinsOverEarlierRestart(s: GameState, before: seq<Event>, e: Event, after: seq<Event>)
    requires s.mode == Lost && Exits(e)
    ensures LostFrame(s, before + [e] + after) == s.(mode := Terminated)
  {
    assert (before + [e] + after)[|before|] == e;
  }

  /** In the lost mode, keys other than Y, N and Quit change nothing. */
  lemma LostIgnoresOtherKeys(s: GameState, events: seq<Event>)
    requires s.mode == Lost
    requires forall i :: 0 <= i < |events| ==> events[i] != Quit && events[i] != KeyDown(KeyY) && events[i] != KeyDown(KeyN)
    ensures LostFrame(s, events) == s
  {
  }

  /** A run that has terminated stays terminated: no later batch changes it. */
  lemma {:induction false} TerminatedStays(s: GameState, a: seq<seq<Event>>, b: seq<seq<Event>>)
    requires RunFrames(s, a).mode == Terminated
    ensures RunFrames(s, a + b) == RunFrames(s, a)
    decreases |b|
  {
    if b == [] {
      assert a + b == a;
    } else {
      assert (a + b)[..|a + b| - 1] == a + b[..|b| - 1];
      TerminatedStays(s, a, b[..|b| - 1]);
    }
  }

  // ---------------------------------------------------------------------------
  // A scenario: the player never presses anything

  function Idle(n: nat): (batches: seq<seq<Event>>) {
    seq(n, _ => [])
  }

  /** Without input the obstacle approaches 5 pixels per frame without
      collision for 132 frames ... */
  lemma {:induction false} IdleApproach(n: nat)
    requires n <= 132
    ensures RunFrames(Initial(), Idle(n)) == Initial().(obstacleX := Width - ObstacleSpeed * n)
  {
    if n > 0 {
      assert Idle(n)[..n - 1] == Idle(n - 1);
      IdleApproach(n - 1);
      assert Trunc(Ground) == 300;
    }
  }

  /** ... and the first collision, and so the lost mode, comes on frame 133,
      with the obstacle at x = 135. */
  lemma IdleFirstCollision()
    ensures RunFrames(Initial(), Idle(133)) == Initial().(obstacleX := 135, mode := Lost)
  {
    assert Idle(133)[..132] == Idle(132);
    IdleApproach(132);
    assert Trunc(Ground) == 300;
  }
}
