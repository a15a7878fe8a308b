# gravity-pong, modelled in Dafny

gravity-pong is a two-player Pong for the browser, in one file, `index.js`.
The ball falls under gravity. It bounces off the bottom and top walls and is
served back from the left and right sides. Each side has a paddle (a `Board`)
that the player whose turn it is steers with the arrow keys. A paddle hit
scores a point for that side. A miss at the side wall takes a point away.
Either way the serve passes the turn to the other side.

This project models the deterministic core of that program: the per-frame
physics of `Ball.render`, the paddle step of `Board.render`, the
keydown/keyup/click listeners, the constructor and `init` of `Pong`, the
`Vector` class and `getRandom`.

- `random.dfy`, module `Random`: `getRandom`, with the draw of `Math.random()`
  as a parameter `u` in [0, 1).
- `vector.dfy`, module `Vectors`: the mutable `Vector` class.
- `rules.dfy`, module `Rules`: the game's constants, a value snapshot of the
  game state (`GameState`), and the rules as functions on snapshots: one frame
  of the ball (`BallStep`, built from `Fall`, `VerticalWalls`, `LeftRule` and
  `RightRule`), one frame of a paddle (`PaddleStep`), one whole frame
  (`Frame`) and the three input handlers. It also holds the lemmas about them.
- `pong.dfy`, module `PongGame`: the classes `Ball`, `Board` and `Pong`, with
  the fields the program updates in place. Each method is proved to change its
  snapshot exactly as the function in `Rules` says. The program's single
  `Ball.render` is written as `Render` calling three stages: `Move`, `LeftSide`
  and `RightSide`.
- `play.dfy`, module `Play`: sequences of events (frames, key presses, key
  releases, clicks) after launch, and the properties that hold on every frame
  of a session.

The screen width and height are parameters of every operation that reads
`window.innerWidth` or `window.innerHeight`. Positions, velocities and the
frame's `delta` are exact `real`s.

Three behaviours of the code are worth knowing:
- A paddle's top is not kept within [0, height − length]. The downward step
  is taken whenever top < height − length, so the paddle can pass that line
  by less than a step. On a screen 1005 pixels high a paddle at 600 moving
  down ends at 610, below 603 (`Rules.PaddleOvershoot`).
  `Rules.PaddleStepBelowFloor` states the bound the code does keep.
  `Rules.PaddleStepStopsOnFloor` shows the paddle stops exactly on the line
  when height − length is a multiple of 10.
- A right-wall miss lowers the right score and gives the turn to the left
  (`Rules.RightRule`).
- `init` draws a first frame with `delta` 0, and that frame moves the ball by
  its serve speed. On a screen larger than 105 × 60, after construction the
  ball is at (50 + vx, 50), not (50, 50) (`Rules.FirstFrame`).

## Model

| member | source | states |
|---|---|---|
| Random.GetRandom | index.js:225-227 | for any draw in [0, 1) and min ≤ max, the result is an integer in [min, max] |
| Random.GetRandomReachesEvery | index.js:225-227 | every integer of [min, max] is the result of some draw in [0, 1), so the range is the whole interval |
| Vectors.Vector.constructor | index.js:6-9 | the new vector holds the two given components |
| Vectors.Vector.Add | index.js:11-14 | the receiver gains the argument's components (as they were on entry), one by one |
| Vectors.Vector.GetMultiplied | index.js:16-18 | returns a new vector equal to the receiver scaled by n; the receiver is not changed |
| Rules.Serve | index.js:125-130 | a new ball is where it was placed, with vertical speed 0 and a whole-number horizontal speed in [10, 35] |
| Rules.Fall | index.js:134-136 | vx is kept and vy gains 5·delta first; then x and y move by the new velocity |
| Rules.VerticalWalls | index.js:138-147 | on a screen taller than 2r the ball ends with r ≤ y ≤ H − r; a bottom hit puts y at H − r and negates vy; a top hit puts y at r and vy to exactly 20, whatever it was; on a screen at most 2r high a ball at the bottom is bottomed and then topped, ending at y = r with vy = 20; otherwise nothing changes; x and vx are never touched |
| Rules.LeftRule | index.js:149-169 | a left paddle hit (left's turn, x ≤ size + r, y within the paddle) puts x at size + r and adds a left point; else a left-wall contact (x ≤ r, whatever the turn) puts x at r and takes a left point; both serve a whole-number vx in [10, 35], lower vy by 50 and give the turn to the right; otherwise the state is unchanged; y, the right board and the paddles are never touched |
| Rules.RightRule | index.js:171-191 | the mirror on the right: a hit puts x at W − size − r and adds a right point, a miss puts x at W − r and takes a right point; both serve a whole-number vx in [−35, −10], lower vy by 50 and give the turn to the left; otherwise nothing changes |
| Rules.Walled | index.js:134-147 | motion and the two walls change only the ball; x moves by vx, vx is kept, and on a screen taller than 2r the ball ends with r ≤ y ≤ H − r |
| Rules.BallStep | index.js:132-191 | one ball frame changes only the ball, the turn and the scores; each score moves by at most 1; if W ≥ 2(size + r) the ball ends with r ≤ x ≤ W − r, whatever H; if H > 2r it ends with r ≤ y ≤ H − r, whatever W |
| Rules.QuietFlight | index.js:134-136 | when nothing is touched, vx is kept, vy gains 5·delta, and x and y move by the new velocity; turn and scores stay |
| Rules.OneSidePerTick | index.js:149-191 | in a court wider than 2(size + r), a frame that fires the left rule never fires the right one |
| Rules.NarrowCourtDoubleHit | index.js:149-191 | in a court exactly 2(size + r) wide, the right rule reads the turn the left rule just set, so one frame can score both sides |
| Rules.PaddleStep | index.js:213-214 | moving 1 with top > 0 raises the paddle by 10; moving −1 with top < H − length lowers it by 10; otherwise top stays; nothing but top changes |
| Rules.PaddleStepOnGrid | index.js:213-214 | a paddle whose top is a whole number of 10-pixel steps (top ≥ 0) stays so, so top stays ≥ 0 |
| Rules.PaddleStepBelowFloor | index.js:214 | a top less than a step past H − length stays less than a step past it |
| Rules.PaddleStepStopsOnFloor | index.js:214 | when H − length is itself a multiple of 10, a paddle at or above it stays at or above it |
| Rules.PaddleOvershoot | index.js:214 | on a screen 1005 high, a paddle at 600 moving down ends at 610, below H − length = 603 |
| Rules.OnKeyDown | index.js:48-67 | the first key only sets hasBegun; after that ArrowUp sets moving 1 and ArrowDown sets moving −1 on the board whose turn it is, the other board is untouched, and any other key changes nothing; no key moves the ball, a paddle, the turn or a score |
| Rules.OnKeyUp | index.js:69 | both boards' moving become 0; nothing else changes |
| Rules.OnClick | index.js:71-76 | a click sets hasBegun and changes nothing else; once begun it changes nothing at all |
| Rules.KeyUpHoldsPaddles | index.js:69 | after a keyup, the next paddle steps leave both tops where they were |
| Rules.KeyDownIdempotent | index.js:48-67 | once begun, pressing a key twice has the effect of pressing it once |
| Rules.Start | index.js:37-41 | before the first frame: not begun, turn right, ball at (50, 50) with vy 0 and a whole-number vx in [10, 35], both boards at top 0 with length 0.4·H, score 0 and moving 0 |
| Rules.Frame | index.js:83-92 | one `Pong.render`: scores move by at most 1, each top by at most 10, lengths and moving flags stay, tops on the 10-pixel grid stay on it and ≥ 0, and the ball ends with r ≤ x ≤ W − r when W ≥ 2(size + r) and with r ≤ y ≤ H − r when H > 2r |
| Rules.FirstFrame | index.js:37-45 | after init's first frame (delta 0) on a screen larger than 105 × 60, the ball has moved once by its serve speed from (50, 50); turn right, scores 0, moving 0, not begun |
| PongGame.Ball.constructor | index.js:125-130 | the ball's state is `Serve` of its position and the draw |
| PongGame.Ball.Render | index.js:132-191 | the game's new snapshot is `BallStep` of the old one; the boards stay valid |
| PongGame.Ball.Move | index.js:134-147 | gravity, motion and the two walls, as `Walled` |
| PongGame.Ball.LeftSide | index.js:149-169 | the left side's rule, as `LeftRule` |
| PongGame.Ball.RightSide | index.js:171-191 | the right side's rule on the turn the left side left, as `RightRule` |
| PongGame.Board.constructor | index.js:202-210 | top as given, length 0.4·H, score 0, moving 0; a board built at top 0 is valid (on the grid) |
| PongGame.Board.Render | index.js:212-214 | top changes as `PaddleStep` says, and stays ≥ 0 and on the grid |
| PongGame.Pong.constructor | index.js:28-45 | the game is built not begun, turn right, ball at (50, 50) served from a draw, boards at x = 0 and x = W − size with top 0, then one frame with delta 0 is drawn (`Frame` of `Start`); the ball, its speed vector and both boards are new objects, so a caller can go on to drive the handlers and frames |
| PongGame.Pong.Render | index.js:83-92 | the snapshot becomes `Frame` of the old one: ball first, then the left board, then the right one; both tops stay ≥ 0 |
| PongGame.Pong.KeyDown | index.js:48-67 | the snapshot becomes `OnKeyDown` of the old one |
| PongGame.Pong.KeyUp | index.js:69 | the snapshot becomes `OnKeyUp` of the old one |
| PongGame.Pong.Click | index.js:71-76 | the snapshot becomes `OnClick` of the old one |
| Play.Step | index.js:48-81 | one event: a frame before the game has begun changes nothing, since only `start()` registers the ticker; once begun it is `Frame`; frames keep `hasBegun`, input never moves the ball or changes the turn, and a keydown or click leaves the game begun |
| Play.Launch | index.js:28-45 | after the constructor and its first frame: not begun, both tops 0, both moving 0, lengths 0.4·H, the left score 0 and the right score within one point of 0 |
| Play.LaunchSound | index.js:37-45 | right after construction both tops are on the grid, the moving flags are in {−1, 0, 1} and the game has not begun |
| Play.StepSound | index.js:48-92 | one event (frame, keydown, keyup or click) keeps tops on the grid and moving flags in {−1, 0, 1}; a frame reaches the game only once it has begun |
| Play.RunSound | index.js:48-92 | any sequence of events keeps that, so both tops stay ≥ 0 |
| Play.PaddlesNeverAboveTop | index.js:40-41 | from launch, after any events, both paddles' tops are ≥ 0 |
| Play.ScoreDrift | index.js:149-191 | over any events, each score moves by at most the number of frames among them |
| Play.BegunStaysBegun | index.js:48-76 | once begun, a game stays begun whatever happens |
| Play.StillUntilStart | index.js:48-81 | a game not begun, with both boards still, is left exactly as it is by frames and keyups: the ticker is not registered until a keydown or click calls `start()` |
| Play.LaunchStillUntilStart | index.js:28-81 | from the launch, until the first keydown or click, the state stays exactly as the constructor left it |
| Play.BothBoardsCanMove | index.js:48-69 | a board set moving on its turn keeps moving after the turn passes, so both boards can be moving until a key is released |

## Left out

- Drawing: the PIXI application and stage, the `Graphics` frame, the circle, the rectangles, the score texts and the start prompt (index.js:2-3, 84-86, 93-120, 193-195, 216-218). The drawing library is not part of this model.
- Event wiring: `addEventListener` and `app.ticker.add` (index.js:31, 48, 69, 71, 79-81). The listeners are methods called directly, and the host's frames are the `Tick` events of module `Play`. `start()` registers the ticker, and the listeners call it exactly when they set `hasBegun`. So in `Play.Step` a frame reaches the game only once `hasBegun` holds. The class `PongGame.Pong` has no ticker, and its `Render` can be called in any state, as the constructor's own first frame is.
- `window.innerWidth` and `window.innerHeight` are parameters. A resize between frames is allowed, but `Board.length` keeps the height it was built with, as in the code. `Rules.PaddleStepBelowFloor` assumes one height.
- `Math.random()` is a parameter `u` in [0, 1). Each serve has its own draw, passed to the frame as `uLeft` and `uRight`.
- Floating point: all arithmetic is exact. In IEEE doubles, `getRandom(10, 35)` could round to 36 for draws within 2^-53 of 1. The model does not capture that.
- `Vector.length` (index.js:20-22) is never called, and it uses `Math.sqrt` with an ignored second argument. It is not modelled.
- The gravity vector `g` (index.js:25) is never changed. `Ball.Move` builds an equal fresh vector each frame instead of sharing one object.
- `Pong.init` (index.js:37-45) is called only from the constructor, so it is part of `PongGame.Pong.constructor` rather than a method of its own.
- A single-player variant, with a restart on a miss, does not exist in this code.
