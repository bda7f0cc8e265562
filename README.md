# Runner game: a verified model of the frame-step state machine

This project models the game logic of a single-screen runner game. The player
jumps over an obstacle that scrolls in from the right. A collision ends the
round and waits for the player to restart (Y) or quit (N).

`run_game` is three nested loops:

- a session loop that resets the round's variables;
- the playing loop, one pass per frame;
- the lost-mode loop, one pass per poll of the event queue after a collision.

The model keeps those variables and drops all drawing. It keeps the two
event-draining loops as loops; the nesting of the session, playing and
lost-mode loops becomes one loop over a sequence of event batches that runs
one pass of whichever loop the mode selects (`RunnerGame.Game.Play`), which
visits the same polls in the same order.

- `geometry.dfy`, module `Geometry`: the integer rectangles of a frame, their
  overlap test, and the real-to-integer conversion a rectangle applies to the
  player's height.
- `runner.dfy`, module `Runner`: the constants, the events, the three modes
  (playing, lost and awaiting a decision, terminated) and the state the round
  mutates. Each part of a frame is a function: draining the events, the jump
  physics, the obstacle motion, the collision check, and the lost-mode
  decision. `Frame` picks the active loop's pass by mode, and `RunFrames`
  applies one pass per event batch.
- `game.dfy`, module `RunnerGame`: class `Game` with the round's variables as
  fields. Its methods `Reset`, `Step`, `LostStep` and `Play` run the source's
  loops over event sequences. Each is proved to leave exactly the state the
  matching function of `Runner` computes.
- `properties.dfy`, module `RunnerProperties`: lemmas about the model. They
  cover the jump arc, the obstacle cycle, the score, collisions and the mode
  transitions. They also prove an invariant of every reachable state.

The player's height and vertical velocity are `real`. In the source they
become floating-point numbers once `y_velocity += 0.5` runs. Every value
they take is a small multiple of 0.5, which binary floating point holds
exactly, so `real` arithmetic gives the same values. Quitting (window close,
or N in the lost mode) is the mode `Terminated`. The events after a quit in
the same batch are never processed, because the program exits at once.

Assumptions about library code that is not part of this model:

- Collision uses the graphics library's documented rectangle convention.
  Rectangles collide only when they share a pixel, so boxes touching along an
  edge do not collide. `Geometry.CollideRectSharesPixel` proves that the
  overlap test means exactly this. Requiring a positive width and height is
  this model's own choice; every box in the game is 40 by 40.
- The library's rectangle turns the player's real height into an integer by
  truncating toward zero (`Geometry.Trunc`). Every reachable height lies in
  [195, 300] (`RunnerProperties.RunFramesInv`), so this equals the floor.

Two consequences of the code worth knowing:

- Boxes that only touch along an edge do not collide. So an idle game first
  collides on frame 133, with the obstacle at x = 135
  (`RunnerProperties.IdleFirstCollision`). An edge-inclusive test would
  collide one frame earlier.
- Landing keeps the last velocity, 10.5 after a full jump
  (`RunnerProperties.SingleJumpLands`). Within a round, only a new jump sets
  it, to -10; a restart sets it to 0.

The jump arc is stated both for the physics step alone
(`RunnerProperties.SingleJumpAirborne`, `RunnerProperties.SingleJumpLands`)
and for whole frames under `RunFrames` (`RunnerProperties.SingleJumpFrames`).

## Model

| member | source | states |
|---|---|---|
| Geometry.CollideRect | runner_game.py:104 | the assumed overlap test: when it holds, the pixel at the larger left and larger top coordinate lies in both rectangles; rectangles that only touch along an edge never collide |
| Geometry.CollideRectSymmetric | runner_game.py:104 | the collision test gives the same answer whichever rectangle asks |
| Geometry.CollideRectSharesPixel | runner_game.py:101-104 | the overlap test holds exactly when some pixel lies in both rectangles (edges that only touch do not collide) |
| Geometry.Trunc | runner_game.py:101 | the integer coordinate a rectangle stores lies within one unit of the real height, on the zero side |
| Runner.Initial | runner_game.py:56-70 | a round starts playing and grounded at height 300 with velocity 0, the obstacle at x = 800 and score 0 |
| Runner.PlayingEvents | runner_game.py:75-84 | draining a frame's events (the guard at line 82 is the predicate `StartsJump`) either changes nothing or starts one jump (from the ground only, with velocity -10); the mode becomes terminated exactly when a Quit is among the events; with no Quit, the jump flag is set exactly when it was set or a Space came, and the velocity is -10 exactly when a Space came while grounded |
| Runner.JumpStep | runner_game.py:87-92 | the jump physics touches only the player and does nothing while grounded; airborne, the velocity grows by exactly 0.5 and the height becomes height + old velocity, or exactly 300 with the jump over once that reaches the ground; it never takes the player below the ground |
| Runner.ObstacleStep | runner_game.py:95-98 | the obstacle scores exactly one point exactly when moving 5 left would take it below -40, and then reappears at x = 800; otherwise it moves 5 left and the score stays; it stays in [-40, 800] and on the 5-pixel grid |
| Runner.PlayerRect | runner_game.py:101 | the player's box is 40 by 40 at x = 100, its top, for a non-negative height, the height rounded down to a whole pixel |
| Runner.ObstacleRect | runner_game.py:102 | the obstacle's box is 40 by 40 with its top-left corner at (obstacle x, 300), and lies wholly off the left edge exactly when the obstacle must wrap |
| Runner.Collides | runner_game.py:101-104 | the frame's collision decision holds exactly when the obstacle is strictly between x = 60 and 140 and the player's box top strictly between 260 and 340 |
| Runner.PlayingFrame | runner_game.py:72-104 | a playing frame terminates exactly on a Quit; otherwise it is lost exactly when the boxes overlap, scores exactly one point when the obstacle passes -40, and moves the obstacle by -5 or wraps it to 800 |
| Runner.LostDecision | runner_game.py:121-131 | the lost-mode poll (the exit guards at lines 122 and 129 are the predicate `Exits`) exits exactly when a Quit or N appears; it restarts exactly when none appears and a Y was seen; otherwise it keeps waiting |
| Runner.LostFrame | runner_game.py:106-138 | in the lost mode, a Quit or N terminates without other change, even after a Y; a Y without either resets to the initial state; anything else changes nothing |
| Runner.Frame | runner_game.py:72-138 | a terminated machine does not move; a lost one changes only its mode or restarts to the initial state; playing is re-entered only by that restart; a playing frame never lowers the score |
| Runner.RunFrames | runner_game.py:54-149 | the nested loops over a sequence of event batches; a run that starts terminated never changes |
| RunnerGame.Game.constructor | runner_game.py:56-70 | a new game object holds the initial state |
| RunnerGame.Game.Reset | runner_game.py:54-70 | resetting sets every round variable back to its initial constant |
| RunnerGame.Game.Step | runner_game.py:72-104 | the imperative playing frame (event loop, physics, obstacle, collision) leaves exactly the state of PlayingFrame |
| RunnerGame.Game.LostStep | runner_game.py:106-138 | the imperative lost-mode pass (event loop with the restart flag, then reset) leaves exactly the state of LostFrame |
| RunnerGame.Game.Play | runner_game.py:54-149 | running the nested loops over a sequence of event batches leaves exactly the state of RunFrames |
| RunnerProperties.JumpStartsOnlyWhenGrounded | runner_game.py:81-84 | without Quit, a Space while grounded sets airborne with velocity -10; while airborne, including after an earlier Space of the same batch, the events change nothing |
| RunnerProperties.GroundedFrame | runner_game.py:87-92 | a grounded frame without Space keeps height and velocity (the velocity is not reset) and stays grounded |
| RunnerProperties.AirborneFrame | runner_game.py:87-92 | an airborne frame adds exactly 0.5 to the velocity; the height becomes height + old velocity, or exactly 300 with the jump over once that reaches the ground |
| RunnerProperties.ArcStep | runner_game.py:88-89 | the closed-form arc advances by one physics step |
| RunnerProperties.ArcAboveGround | runner_game.py:90 | from step 1 to step 40 the arc stays strictly above the ground |
| RunnerProperties.ArcLowest | runner_game.py:84-89 | the arc never rises above height 195, and it reaches 195 at step 20 |
| RunnerProperties.ArcRisesThenFalls | runner_game.py:84-89 | the jump rises for its first 20 steps, is level between steps 20 and 21, and falls afterwards |
| RunnerProperties.ArcLands | runner_game.py:84-91 | step 41 of the arc is exactly at the ground, with velocity 10.5 |
| RunnerProperties.SingleJumpAirborne | runner_game.py:84-92 | a jump from the ground, with no further input, is on the arc for its first 40 steps, between heights 195 and 300 |
| RunnerProperties.SingleJumpLands | runner_game.py:84-92 | the same jump lands at exactly 300 on step 41, grounded, with velocity 10.5 |
| RunnerProperties.LaunchFrame | runner_game.py:81-92 | a frame whose batch holds a Space press and no Quit (other keys and repeated presses allowed), from the ground, leaves the player on step 1 of the arc, airborne, whether or not it collides |
| RunnerProperties.ArcFrame | runner_game.py:87-104 | an input-free frame on the arc, whether or not it collides, moves the player to the next step of the arc, landing at 300 after step 40 |
| RunnerProperties.SingleJumpFrames | runner_game.py:72-104 | in whole frames, a Space batch from the ground followed by empty batches keeps the player on the arc for 40 frames and lands at exactly 300 on frame 41, as long as the round is still played |
| RunnerProperties.InvBounds | runner_game.py:87-98 | a state satisfying the invariant has the player between heights 195 and 300 and the obstacle in [-40, 800] on the 5-pixel grid |
| RunnerProperties.InitialInv | runner_game.py:56-70 | the initial state satisfies the invariant |
| RunnerProperties.JumpStepInv | runner_game.py:87-92 | the jump physics keeps the player on the arc while airborne and on the ground when not |
| RunnerProperties.FrameInv | runner_game.py:72-138 | every frame, in every mode and with any events, keeps the invariant |
| RunnerProperties.RunFramesInv | runner_game.py:54-149 | every state reachable from the start satisfies the invariant, so the player is always between 195 and 300 and the obstacle in [-40, 800] on the 5-pixel grid |
| RunnerProperties.ObstacleCycle | runner_game.py:63-98 | from x = 800 the obstacle is at 800 - 5 (n mod 169) after n steps, and the score has grown by n div 169 |
| RunnerProperties.WrapScores | runner_game.py:95-98 | on a reachable state a frame scores exactly when the obstacle is at -40, by exactly one, and the obstacle then goes to 800 |
| RunnerProperties.CollidesDependsOnBoxes | runner_game.py:101-104 | the collision decision depends only on the two boxes |
| RunnerProperties.CollidesReachable | runner_game.py:101-104 | on a reachable state the boxes collide exactly when 60 < obstacle x < 140 and the player's height is at least 261 |
| RunnerProperties.RestartIsIdentical | runner_game.py:54-70 | every restart from the lost mode gives the same state: player at height 300, obstacle at 800, score 0 |
| RunnerProperties.ExitWinsOverEarlierRestart | runner_game.py:121-131 | in the lost mode a Quit or N anywhere in the batch terminates, even after a Y |
| RunnerProperties.LostIgnoresOtherKeys | runner_game.py:121-131 | in the lost mode, events other than Y, N and Quit change nothing |
| RunnerProperties.TerminatedStays | runner_game.py:76-78 | a run that has terminated at some point is unchanged by every later batch of events |
| RunnerProperties.IdleApproach | runner_game.py:95-104 | without input the obstacle is at 800 - 5n after n frames; no collision happens for 132 frames |
| RunnerProperties.IdleFirstCollision | runner_game.py:95-104 | without input the first collision, and the lost mode, comes on frame 133, with the obstacle at x = 135 |

## Left out

- Window and display setup, colours, the clock object (runner_game.py:7-19): drawing I/O that has no effect on the game logic.
- `draw_player_man` (runner_game.py:22-48) and font creation (runner_game.py:52): presentation only.
- Overlay, text and score rendering and display updates (runner_game.py:73, 109-119, 140-148): presentation only.
- Frame pacing with the clock (runner_game.py:133, 149): wall-clock timing with no logical effect.
- Event polling: each poll of the queue is an input sequence of events, one per pass of the loop.
- Process exit and the library shutdown (runner_game.py:77-78, 123-124, 130-131): modelled as the mode `Terminated`, not as leaving the process.
- The top-level fault handler, `error.log` writing, the error overlay and the pause (runner_game.py:152-181): file and display side effects.
- The library's rectangle internals: the overlap convention and the truncation of a real coordinate are stated assumptions (see above), not derived.
- The unused `random` import (runner_game.py:2).
- The session loop never ends by itself. `RunnerGame.Game.Play` runs it over a finite sequence of event batches.
