/** The game loop in its imperative form: the round's variables are fields of a
    Game object, and its loops update them step by step. Each method is proved
    to leave exactly the state that the corresponding function of Runner
    computes from the state before it. */
module RunnerGame {
  import opened Runner

  class Game {
    var playerY: real
    var yVelocity: real
    var playerJump: bool
    var obstacleX: int
    var score: nat
    var mode: Mode

    /** The fields as one state value. */
    function State(): GameState
      reads this
    {
      GameState(playerY, yVelocity, playerJump, obstacleX, score, mode)
    }

    /** The state of a fresh round. */
    constructor ()
      ensures State() == Initial()
    {
      playerY, yVelocity, playerJump := 300.0, 0.0, false;
      obstacleX := Width;
      score := 0;
      mode := Playing;
    }

    /** Reset every round variable to its initial constant. */
    method Reset()
      modifies this
      ensures State() == Initial()
    {
      playerY := 300.0;
      playerJump := false;
      yVelocity := 0.0;
      obstacleX := Width;
      score := 0;
      mode := Playing;
    }

    /** One pass of the playing loop over this frame's events. */
    method Step(events: seq<Event>)
      requires mode == Playing
      modifies this
      ensures State() == PlayingFrame(old(State()), events)
    {
      ghost var s0 := State();
      var i := 0;
      while i < |events|
        invariant 0 <= i <= |events|
        invariant mode == Playing
        invariant PlayingEvents(State(), events[i..]) == PlayingEvents(s0, events)
      {
        var e := events[i];
        assert events[i..] == [e] + events[i + 1..];
        if e == Quit {
          mode := Terminated;
          return;
        }
        if e == KeyDown(Space) && !playerJump {
          playerJump := true;
          yVelocity := JumpVelocity;
        }
        i := i + 1;
      }
      assert State() == PlayingEvents(s0, events);

      if playerJump {
        playerY := playerY + yVelocity;
        yVelocity := yVelocity + Gravity;
        if playerY >= Ground {
          playerY := Ground;
          playerJump := false;
        }
      }

      obstacleX := obstacleX - ObstacleSpeed;
      if obstacleX < -ObstacleWidth {
        obstacleX := Width;
        score := score + 1;
      }

      if Collides(State()) {
        mode := Lost;
      }
    }

    /** One pass of the lost-mode loop over this pass's events. */
    method LostStep(events: seq<Event>)
      requires mode == Lost
      modifies this
      ensures State() == LostFrame(old(State()), events)
    {
      var restart := false;
      var i := 0;
      while i < |events|
        invariant 0 <= i <= |events|
        invariant State() == old(State())
        invariant LostDecision(events[i..], restart) == LostDecision(events, false)
      {
        var e := events[i];
        assert events[i..] == [e] + events[i + 1..];
        if e == Quit {
          mode := Terminated;
          return;
        }
        if e == KeyDown(KeyY) {
          restart := true;
        } else if e == KeyDown(KeyN) {
          mode := Terminated;
          return;
        }
        i := i + 1;
      }
      if restart {
        Reset();
      }
    }

    /** The nested loops of the game over a finite sequence of event batches,
        one batch per pass of whichever loop is active. */
    method Play(batches: seq<seq<Event>>)
      modifies this
      ensures State() == RunFrames(old(State()), batches)
    {
      var i := 0;
      while i < |batches|
        invariant 0 <= i <= |batches|
        invariant State() == RunFrames(old(State()), batches[..i])
      {
        assert batches[..i + 1][..i] == batches[..i];
        if mode == Playing {
          Step(batches[i]);
        } else if mode == Lost {
          LostStep(batches[i]);
        }
        i := i + 1;
      }
      assert batches[..i] == batches;
    }
  }
}
