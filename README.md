# Three-player Pong: the game-state logic, modelled and verified in Dafny

This project models the game logic of a small SDL Pong game for two or three players (`main.c`). It leaves out the SDL calls. Two players each steer a paddle with a pair of keys (d/f and k/j). A third player nudges the ball's vertical velocity with the arrow keys. The model covers five things:

- the layout of the field from the window size (`recalc_rects`);
- the rectangle collision test (`check_collision`);
- the vertical part of the bounce formula (`create_random_direction`);
- the keyboard handlers;
- the simulation step (`update_rects`), and the score-and-reset block plus the event dispatch of the main loop.

The files:

- `geometry.dfy`, module `Geometry`: the constants, `Rect`, `Layout`, `CheckCollision` and the bounce formula.
- `world.dfy`, module `World`: the whole game state as a value (`State`) and the invariant that every reachable state satisfies: fixed shapes, a paddle moving exactly while one of its keys is held, paddles inside a window at least 80 high, and a speed of at least 5.
- `controls.dfy`, module `Controls`: a `Key` datatype in place of SDL key codes. Key-down is `Press`; the two key-up handlers are `ReleasePaddle` and `ReleaseP3`.
- `physics.dfy`, module `Physics`: the step as a sequence of phase functions (`Nudge`, `MoveBall`, `WallBounce`, `PaddleBounce`, `GoalOf`, `MovePaddles`), composed by `Advance`.
- `pong.dfy`, module `Pong`: events, the reset, one frame of the loop, and the class `Game`. `Game` holds the loop's state in arrays (`rects`, `vels`, `keys`, `p3`, `scores`) plus `w`, `h` and `speed`, and updates them in place. Each method of `Game` is proved to leave the state equal to the matching pure function applied to the old state, `Snapshot()`. The constructor establishes the invariant `Valid()`, and every other method except `RecalcRects` requires it and is proved to keep it. `RecalcRects` is also called by the constructor before the rectangles have their sizes, so it only promises the layout.

Positions and velocities are Dafny `real`s. This idealises the C `float`s. Window sizes are `nat`: they are never negative, so Dafny's integer division agrees with C's.

## Model

| member | source | states |
|---|---|---|
| Geometry.Layout | main.c:49-66 | the layout yields exactly three rectangles: two 20x80 paddles at the same height, then the 10x10 ball |
| Geometry.LayoutPlacement | main.c:49-66 | paddle 0 is on the left border and paddle 1's right edge is on the right border; both paddles are 20x80 and centred on h/2; the ball is 10x10 and centred on (w/2, h/2), halves rounded down |
| Geometry.LayoutPaddlesInWindow | main.c:60-64 | in a window at least 80 high, both laid-out paddles lie inside it vertically |
| Geometry.LayoutServeIsClear | main.c:49-74 | in a window at least 50 wide, the laid-out ball lies between the paddles and collides with neither; at widths 50 and 51 it touches a paddle edge, which does not count as a collision |
| Geometry.CheckCollision | main.c:68-74 | rectangles that lie apart side by side, or with the first wholly above the second, never collide |
| Geometry.CollisionIffCommonPoint | main.c:68-74 | for a proper rectangle and a square second argument, the test holds exactly when they share an interior point; touching edges do not collide |
| Geometry.CollisionSymmetricForSquares | main.c:68-74 | between two squares the test is symmetric |
| Geometry.CollisionMissesTallSecondArgument | main.c:72 | with a paddle as the second argument, the width-based top comparison misses a real overlap (concrete rectangles) |
| Geometry.HitOffset | main.c:114-115 | the bounce seed is positive exactly when the ball's centre is above the paddle's centre, and zero exactly when they are level |
| Geometry.BounceVy | main.c:80 | a hit above the paddle's centre sends the ball up (negative vy), a hit below sends it down, a hit at the centre sends it level |
| Geometry.BounceVx | main.c:81-82 | with a non-negative root, the new vx points along xdir |
| Geometry.BounceKeepsSpeed | main.c:76-84 | when the root is a true square root, the new velocity has vx^2 + vy^2 == speed^2 and vx points along xdir |
| Geometry.BounceNeverExceedsSpeed | main.c:68-82 | a colliding 80-high paddle and 10x10 ball are less than 45 px off centre; so abs(vy) < 9/8, and vy^2 < speed^2 for every speed of at least 5 |
| World.LayoutGivesShapes | main.c:49-66 | a freshly laid-out field has the fixed entity sizes, and its paddles are in the window when h >= 80 |
| Controls.Press | main.c:215-244 | key-down touches only the paddle velocities and the flags, leaves the ball's velocity alone and never lowers a flag |
| Controls.PressPaddleKey | main.c:215-233 | d/f/k/j set their paddle's velocity to -6/+6/-6/+6 and raise their own flag; nothing else changes, in particular not the ball's velocity |
| Controls.PressOtherKeys | main.c:234-243 | Up/Down raise only their third-player flag; q and all other keys change nothing |
| Controls.PressCode | main.c:240-243 | the key-down handler returns 1 exactly for q, otherwise 0 |
| Controls.ReleasePaddle | main.c:246-266 | the paddle key-up touches only paddle velocities and key flags, never raises a flag, and sets a velocity only to 0 |
| Controls.ReleaseP3 | main.c:267-277 | the third player's key-up touches only that player's flags and never raises one |
| Controls.Release | main.c:330-333 | a key-up event touches only paddle velocities and flags, leaves the ball's velocity alone and never raises a flag |
| Controls.ReleasePaddleKey | main.c:246-266 | releasing a paddle key clears its flag; the paddle's velocity becomes 0 exactly when the opposite flag is clear and is otherwise kept; nothing else changes |
| Controls.ReleaseOtherKeys | main.c:267-277 | releasing Up/Down clears only the matching flag; other releases change nothing |
| Controls.KeysKeepInvariant | main.c:215-277 | key-down, each key-up handler and the whole key-up keep the invariant, in particular "a paddle moves exactly while one of its keys is held": it stops only once both are released |
| Controls.ReleaseKeepsStaleHeading | main.c:218-254 | from any state, press d, press f, release f: paddle 0 keeps moving down although only its up key is held |
| Physics.Nudge | main.c:92-97 | the nudge changes only the ball's vertical velocity |
| Physics.MoveBall | main.c:99-101 | the ball moves without changing size; the paddles and everything else stay |
| Physics.WallBounce | main.c:103-106 | the wall check either keeps or negates vy and changes nothing else |
| Physics.Deflect | main.c:109-129 | a paddle bounce changes only the ball's velocity and the speed; the ball leaves upwards exactly when its centre is above the paddle's; the speed grows by 0.08 |
| Physics.PaddleBounce | main.c:108-130 | the bounce phase changes only the ball's velocity and the speed, which stays or grows by exactly 0.08 |
| Physics.GoalOf | main.c:132-138 | the result is 0, 1 or 2, and 0 exactly when the ball lies strictly between x = 0 and x = w-10 |
| Physics.Clamp | main.c:148-155 | a paddle on or beyond either border is snapped to 0 when moving up and to h-80 when moving down, whichever border it crossed; a paddle at rest or strictly inside is never snapped |
| Physics.ClampByDirection | main.c:148-155 | a paddle past the bottom border that moves up lands on the top border; in a 60-high window the laid-out paddle at y = -10 moving down is snapped up to y = -20 |
| Physics.MovePaddles | main.c:140-156 | paddles move only vertically; the ball and the rest of the state stay |
| Physics.Advance | main.c:89-159 | a step returns 0, 1 or 2, never lowers the speed, and leaves the window, the flags, the paddle velocities and the scores untouched |
| Physics.NudgeEffect | main.c:92-97 | the nudge changes only vy, by at most 0.1; up wins when both flags are set; with neither set nothing changes |
| Physics.BallPhaseEffect | main.c:99-106 | the ball moves by (vx, nudged vy); vy is negated exactly when the moved ball is at y <= 0 or y >= h-10; paddles and everything else are untouched |
| Physics.BounceEffect | main.c:108-130 | at most one paddle bounce: the left paddle only while vx < 0, otherwise the right; a bounce sets vy from the hit offset and vx from the speed; speed grows by exactly 0.08 iff a bounce happened |
| Physics.GoalEffect | main.c:132-138 | the result is 1 iff the new ball x <= 0, else 2 iff x >= w-10, else 0; on a goal the paddles are not moved |
| Physics.PaddleEffect | main.c:140-158 | paddles never change x, width or height; on a step without a goal each paddle's y is its moved-and-clamped value; paddle velocities, window, flags and scores are untouched |
| Physics.ClampKeepsInWindow | main.c:144-156 | a paddle inside a window at least 80 high stays inside it, whatever its velocity |
| Physics.ClampAtTop | main.c:148-151 | a paddle at the top stays there while it moves up, and moves freely down once its velocity is positive |
| Physics.PhasesKeepInvariant | main.c:89-156 | each phase of the step keeps the invariant on its own, so every intermediate state of the step satisfies it |
| Physics.AdvanceKeepsInvariant | main.c:89-159 | every step keeps the invariant: shapes, a paddle moving exactly while one of its keys is held, paddles in a tall window, speed >= 5 |
| Physics.BounceArgumentPositive | main.c:109-129 | in every reachable state, the square-root argument of a bounce is positive, so the NaN case cannot arise |
| Pong.Initial | main.c:287-297 | the start-up state satisfies the invariant |
| Pong.Resize | main.c:199-208 | a resize stores the new size, lays the field out again for it, and changes nothing else |
| Pong.Reset | main.c:341-354 | the reset keeps the window and third-player flags; scores never drop, and their total grows by one exactly on a goal result |
| Pong.ResetEffect | main.c:341-354 | result 1 scores for player 2 and result 2 for player 1; the field is laid out again, vels become (0,0,5,0), paddle flags are cleared, speed becomes 5, and the window and third-player flags are kept; other results change nothing |
| Pong.ResetKeepsInvariant | main.c:341-354 | the reset keeps the invariant |
| Pong.ApplyEvent | main.c:316-335 | no single event touches the scores or the ball speed |
| Pong.ApplyEvents | main.c:316-335 | the events of a frame, handled in order, leave the scores and the ball speed as they were |
| Pong.ApplyEventsKeepInvariant | main.c:316-335 | handling any sequence of events keeps the invariant |
| Pong.FrameState | main.c:299-354 | a frame never lowers a score, and its speed either has not dropped or is back at the initial 5 |
| Pong.FrameKeepsInvariant | main.c:299-354 | a whole frame (events, step, reset) keeps the invariant |
| Pong.FrameScores | main.c:336-343 | scores never decrease; a frame adds one point in total iff its step scored, and none otherwise |
| Pong.RallyOverFrames | main.c:299-354 | over whole frames (events, step, reset) without a goal, the speed is the starting speed plus 0.08 per paddle bounce |
| Pong.Game.constructor | main.c:284-297 | allocates the arrays and sets up the loop's initial state, equal to `Initial(w, h)` |
| Pong.Game.RecalcRects | main.c:49-66 | the layout loop leaves the rectangle array equal to `Layout(w, h)` |
| Pong.Game.HandleResize | main.c:199-208 | a resize stores the new size and lays the field out again, keeping the invariant |
| Pong.Game.HandleKeyPress | main.c:215-244 | updates the arrays in place exactly as `Press` says, returns `PressCode`, and keeps the invariant |
| Pong.Game.UpdatePaddleVels | main.c:246-266 | updates keys and vels in place exactly as `ReleasePaddle` says, returns 0, and keeps the invariant |
| Pong.Game.UpdateP3Flips | main.c:267-277 | updates the third-player flags exactly as `ReleaseP3` says, returns 0, and keeps the invariant |
| Pong.Game.HandleKeyRelease | main.c:330-333 | runs both key-up handlers in order, which keeps the invariant |
| Pong.Game.ApplyBallControl | main.c:92-97 | the in-place nudge equals `Nudge`, keeping the invariant |
| Pong.Game.MoveBallRect | main.c:99-101 | the in-place ball move equals `MoveBall`, keeping the invariant |
| Pong.Game.BounceOffWalls | main.c:103-106 | the in-place wall bounce equals `WallBounce`, keeping the invariant |
| Pong.Game.BounceOffPaddles | main.c:108-130 | the in-place paddle bounce and speed ramp equal `PaddleBounce`, keeping the invariant |
| Pong.Game.MovePaddleRects | main.c:140-156 | moving both paddles, then the clamping loop, equals `MovePaddles`, keeping the invariant |
| Pong.Game.UpdateRects | main.c:89-159 | the in-place step leaves the state and returns the code that `Advance` gives, and keeps the invariant |
| Pong.Game.ResetAfterStep | main.c:340-354 | the in-place reset block equals `Reset` and keeps the invariant |
| Pong.Game.HandleEvents | main.c:316-335 | the event loop equals `ApplyEvents` on the events in order and keeps the invariant; it returns true iff some event was a quit event or a q key-down |
| Pong.Game.Frame | main.c:299-354 | one pass of the loop body (event loop, step, reset) equals `FrameState` and keeps the invariant; it returns true iff some event was a quit event or a q key-down |

## Behaviour kept as the code has it

Where the code differs from the intended design of the game, the model follows the code.

- Collision (main.c:72): the top comparison uses the second rectangle's width. Both calls pass the square ball as the second argument, so this never changes the outcome in the game (`CollisionIffCommonPoint`). `CollisionMissesTallSecondArgument` shows where it would matter.
- Third-player flags (main.c:92-97): when both are set, the up flag wins and vy drops by 0.1. The two do not cancel.
- Paddle key release (main.c:246-266): releasing a key while the opposite key is held keeps the paddle's current velocity. It does not switch to the held key's direction (`ReleaseKeepsStaleHeading`).
- Square root (main.c:81-82): the code does not clamp the argument. In every reachable state the argument is positive anyway (`BounceArgumentPositive`).
- Reset (main.c:341-354): the third player's flags are not cleared.
- Paddle clamp (main.c:148-155): the snap follows the direction of travel, not the border that was crossed. A paddle past the bottom border that moves up lands on the top border. In a window lower than 80 pixels the bottom bound h-80 is negative, so a paddle moving down is snapped upwards (`ClampByDirection`).

## Left out

- Rendering, textures, window creation and `main` (main.c:165-197, 370-395): these are calls into the SDL library, which is not part of this model.
- Event polling and its fatal error exit, frame pacing with `SDL_GetTicks`/`SDL_Delay`, and `SDL_Log` (main.c:301-314, 343, 356-363): I/O and wall-clock time. `Frame` receives the frame's events as a sequence. The outer `while (!exit_game)` repetition is not a method; `Frame` models one pass and returns the quit flag.
- Window events other than a resize, and all other SDL event types, become `OtherEvent` and do nothing. A resize carries the new output size that the renderer reports.
- BounceVx: the x component of the bounce uses `sqrtf`, which is the parameter `root`. `BounceKeepsSpeed` holds for a root that is a true square root. The `powf`/`sqrtf` float rounding is not modelled.
- Float rounding in general: positions, velocities and speed are exact reals, so 0.1 and 0.08 are exact.
- Score counters are unbounded naturals; C `int` overflow after 2^31 goals is not modelled.
- Key and control flags are booleans in place of C ints that only ever hold 0 or 1. The key-down handler's documented -1 error code is never returned by the code and does not appear.
- C artefacts with no effect on behaviour: the uninitialised `exit_game`, the unused `rectc`/`velc` counts (including `sizeof(vels)` passed as a count), and the `free` of an SDL surface.
