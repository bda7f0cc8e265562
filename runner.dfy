/** The frame-step state machine of the runner game, as pure functions on a
    state value. One call of PlayingFrame is one pass of the game's per-frame
    loop; one call of LostFrame is one pass of the loop that waits, after a
    collision, for the player to choose between restarting and quitting. */
module Runner {
  import opened Geometry

  // Playfield and entity constants, as the game resets them for every round.
  const Width: int := 800
  const Ground: real := 300.0
  const PlayerX: int := 100
  const PlayerWidth: int := 40
  const PlayerHeight: int := 40
  const ObstacleY: int := 300
  const ObstacleWidth: int := 40
  const ObstacleHeight: int := 40
  const ObstacleSpeed: int := 5
  const JumpVelocity: real := -10.0
  const Gravity: real := 0.5

  datatype Key = Space | KeyY | KeyN | OtherKey

  /** One input event as the event queue delivers it. */
  datatype Event = Quit | KeyDown(key: Key) | OtherEvent

  /** Playing; lost and waiting for a decision; or the process has exited. */
  datatype Mode = Playing | Lost | Terminated

  /** Everything one round mutates. The player's x position and both sizes,
      and the obstacle's y position and size, are the constants above. */
  datatype GameState = GameState(
    playerY: real,
    yVelocity: real,
    playerJump: bool,
    obstacleX: int,
    score: nat,
    mode: Mode)

  /** The state every round starts from. */
  function Initial(): (s: GameState)
    ensures s.mode == Playing && !s.playerJump
    ensures s.playerY == Ground && s.yVelocity == 0.0
    ensures s.obstacleX == Width && s.score == 0
  {
    GameState(300.0, 0.0, false, Width, 0, Playing)
  }

  /** A Space key-down while the player is grounded starts a jump. */
  predicate StartsJump(s: GameState, e: Event) {
    e == KeyDown(Space) && !s.playerJump
  }

  /** The event-draining part of a playing frame. A Quit ends the program on the
      spot, so the events after it are never looked at. Only the jump flag, the
      velocity and the mode can change; a Space while airborne (including a
      second Space of the same batch) is ignored. */
  function PlayingEvents(s: GameState, events: seq<Event>): (r: GameState)
    requires s.mode == Playing
    ensures r == s.(mode := r.mode) ||
            (!s.playerJump && r == s.(playerJump := true, yVelocity := JumpVelocity, mode := r.mode))
    ensures r.mode == (if Quit in events then Terminated else Playing)
    ensures Quit !in events ==> r.playerJump == (s.playerJump || KeyDown(Space) in events)
    ensures Quit !in events ==>
      r.yVelocity == (if !s.playerJump && KeyDown(Space) in events then JumpVelocity else s.yVelocity)
    decreases |events|
  {
    if events == [] then s
    else if events[0] == Quit then s.(mode := Terminated)
    else
      var s' := if StartsJump(s, events[0]) then s.(playerJump := true, yVelocity := JumpVelocity) else s;
      assert events == [events[0]] + events[1..];
      PlayingEvents(s', events[1..])
  }

  /** The jump physics of a frame: while airborne, move by the velocity, then
      accelerate by gravity, then clamp to the ground (which ends the jump). */
  function JumpStep(s: GameState): (r: GameState)
    ensures r.obstacleX == s.obstacleX && r.score == s.score && r.mode == s.mode
    ensures s.playerY <= Ground ==> r.playerY <= Ground
    ensures r.playerJump ==> s.playerJump && r.playerY < Ground
    ensures !s.playerJump ==> r == s
    ensures s.playerJump ==> r.yVelocity == s.yVelocity + Gravity
    ensures s.playerJump && s.playerY + s.yVelocity < Ground ==>
      r.playerY == s.playerY + s.yVelocity && r.playerJump
    ensures s.playerJump && s.playerY + s.yVelocity >= Ground ==> r.playerY == Ground && !r.playerJump
  {
    if s.playerJump then
      var y := s.playerY + s.yVelocity;
      var v := s.yVelocity + Gravity;
      if y >= Ground then s.(playerY := Ground, yVelocity := v, playerJump := false)
      else s.(playerY := y, yVelocity := v)
    else s
  }

  /** The obstacle moves left by its speed, and re-enters at the right edge,
      scoring a point, once it is entirely off the left edge. */
  function ObstacleStep(s: GameState): (r: GameState)
    ensures r.playerY == s.playerY && r.yVelocity == s.yVelocity && r.playerJump == s.playerJump
    ensures r.mode == s.mode
    ensures r.score == s.score + 1 <==> s.obstacleX - ObstacleSpeed < -ObstacleWidth
    ensures r.score == s.score + 1 ==> r.obstacleX == Width
    ensures r.score != s.score + 1 ==> r.score == s.score && r.obstacleX == s.obstacleX - ObstacleSpeed
    ensures s.obstacleX <= Width ==> -ObstacleWidth <= r.obstacleX <= Width
    ensures s.obstacleX % ObstacleSpeed == 0 ==> r.obstacleX % ObstacleSpeed == 0
  {
    var x := s.obstacleX - ObstacleSpeed;
    if x < -ObstacleWidth then s.(obstacleX := Width, score := s.score + 1)
    else s.(obstacleX := x)
  }

  /** The player's box: 40 by 40 at x = 100, its top the player's height
      truncated to a whole pixel. */
  function PlayerRect(s: GameState): (r: Rect)
    ensures r.x == PlayerX && r.w == PlayerWidth && r.h == PlayerHeight
    ensures 0.0 <= s.playerY ==> r.y as real <= s.playerY < r.y as real + 1.0
  {
    Rect(PlayerX, Trunc(s.playerY), PlayerWidth, PlayerHeight)
  }

  /** The obstacle's box; it lies entirely off the left edge of the screen
      exactly when the obstacle has to wrap. */
  function ObstacleRect(s: GameState): (r: Rect)
    ensures r.x == s.obstacleX && r.y == ObstacleY && r.w == ObstacleWidth && r.h == ObstacleHeight
    ensures r.x + r.w < 0 <==> s.obstacleX < -ObstacleWidth
  {
    Rect(s.obstacleX, ObstacleY, ObstacleWidth, ObstacleHeight)
  }

  /** The collision test of a frame depends only on the two boxes: the obstacle
      must be strictly between x = 60 and x = 140 and the player's box top
      strictly between 260 and 340. */
  predicate Collides(s: GameState): (r: bool)
    ensures r <==> PlayerX - ObstacleWidth < s.obstacleX < PlayerX + PlayerWidth &&
                   ObstacleY - PlayerHeight < Trunc(s.playerY) < ObstacleY + ObstacleHeight
  {
    CollideRect(PlayerRect(s), ObstacleRect(s))
  }

  /** One pass of the playing loop: drain the events, do the jump physics, move
      the obstacle, and enter the lost mode on a collision. */
  function PlayingFrame(s: GameState, events: seq<Event>): (r: GameState)
    requires s.mode == Playing
    ensures r.mode == Terminated <==> Quit in events
    ensures Quit !in events ==> r.mode == (if Collides(r) then Lost else Playing)
    ensures Quit !in events ==>
      r.score == s.score + (if s.obstacleX - ObstacleSpeed < -ObstacleWidth then 1 else 0)
    ensures Quit !in events ==>
      r.obstacleX == (if s.obstacleX - ObstacleSpeed < -ObstacleWidth then Width else s.obstacleX - ObstacleSpeed)
  {
    var e := PlayingEvents(s, events);
    if e.mode == Terminated then e
    else
      var m := ObstacleStep(JumpStep(e));
      if Collides(m) then m.(mode := Lost) else m
  }

  /** What one pass of the lost-mode loop decides. */
  datatype Decision = Wait | Restart | Exit

  /** A Quit or an N key-down leaves the program. */
  predicate Exits(e: Event) {
    e == Quit || e == KeyDown(KeyN)
  }

  /** The event-draining part of the lost-mode loop; `restart` records whether a
      Y was seen earlier in the batch. A Y only schedules the restart, so a
      later Quit or N in the same batch still exits. */
  function LostDecision(events: seq<Event>, restart: bool): (d: Decision)
    ensures d == Exit <==> exists i :: 0 <= i < |events| && Exits(events[i])
    ensures d == Restart <==>
      (forall i :: 0 <= i < |events| ==> !Exits(events[i])) && (restart || KeyDown(KeyY) in events)
    decreases |events|
  {
    if events == [] then (if restart then Restart else Wait)
    else if Exits(events[0]) then Exit
    else
      assert events == [events[0]] + events[1..];
      LostDecision(events[1..], restart || events[0] == KeyDown(KeyY))
  }

  /** One pass of the lost-mode loop: nothing about the round changes; a
      restart begins the next round from the initial state. */
  function LostFrame(s: GameState, events: seq<Event>): (r: GameState)
    requires s.mode == Lost
    ensures (exists i :: 0 <= i < |events| && Exits(events[i])) ==> r == s.(mode := Terminated)
    ensures (forall i :: 0 <= i < |events| ==> !Exits(events[i])) && KeyDown(KeyY) in events ==>
      r == Initial()
    ensures (forall i :: 0 <= i < |events| ==> !Exits(events[i])) && KeyDown(KeyY) !in events ==>
      r == s
  {
    match LostDecision(events, false)
    case Exit => s.(mode := Terminated)
    case Restart => Initial()
    case Wait => s
  }

  /** One pass of whichever loop the mode selects; after exit nothing happens.
      The lost mode changes nothing but the mode, or restarts; the playing mode
      is only re-entered by a restart; within a round the score never drops. */
  function Frame(s: GameState, events: seq<Event>): (r: GameState)
    ensures s.mode == Terminated ==> r == s
    ensures s.mode == Lost ==> r == s || r == s.(mode := Terminated) || r == Initial()
    ensures r.mode == Playing ==> s.mode == Playing || r == Initial()
    ensures s.mode == Playing ==> r.score >= s.score
  {
    match s.mode
    case Playing => PlayingFrame(s, events)
    case Lost => LostFrame(s, events)
    case Terminated => s
  }

  /** The state after one pass per event batch, in order. */
  function RunFrames(s: GameState, batches: seq<seq<Event>>): (r: GameState)
    ensures s.mode == Terminated ==> r == s
    decreases |batches|
  {
    if batches == [] then s
    else Frame(RunFrames(s, batches[..|batches| - 1]), batches[|batches| - 1])
  }
}
