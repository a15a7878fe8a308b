/** The deterministic rules of the game, on snapshots of its state: the
    physics of one frame of the ball (`Ball.render`), one frame of a paddle
    (`Board.render`), and the effects of the three input handlers. The classes
    in module PongGame are proved to follow these functions exactly. */
module Rules {
  import opened Random

  const Radius: real := 10.0      // Ball.radius
  const BoardSize: real := 10.0   // Board.size, the paddle's width
  const PaddleSpeed: real := 10.0 // Board.speed
  const GravityX: real := 0.0     // g = new Vector(0, 5)
  const GravityY: real := 5.0
  const TopKick: real := 20.0     // vertical speed after touching the top wall
  const Lift: real := 50.0        // taken off the vertical speed at every serve
  const ServeMin: int := 10       // bounds of every horizontal serve speed
  const ServeMax: int := 35
  const LengthRatio: real := 0.4  // paddle length over screen height
  const StartX: real := 50.0      // where init places the ball
  const StartY: real := 50.0

  datatype Side = Left | Right {
    function Other(): (r: Side)
      ensures r != this
    {
      if this == Left then Right else Left
    }
  }

  datatype BallState = BallState(x: real, y: real, vx: real, vy: real)

  /** One board: `top` moves, `length` is fixed at construction, `moving` is
      1 (up), -1 (down) or 0, and `score` is that player's points. */
  datatype Paddle = Paddle(top: real, length: real, moving: int, score: int)

  datatype GameState = GameState(hasBegun: bool, turn: Side, ball: BallState, left: Paddle, right: Paddle)

  // ---------------------------------------------------------------- the ball

  /** A new ball (the `Ball` constructor): at rest vertically, with a
      horizontal speed drawn from [10, 35]. */
  function Serve(x: real, y: real, u: real): (r: BallState)
    requires 0.0 <= u < 1.0
    ensures r.x == x && r.y == y && r.vy == 0.0
    ensures ServeMin as real <= r.vx <= ServeMax as real && r.vx == r.vx.Floor as real
  {
    BallState(x, y, GetRandom(ServeMin, ServeMax, u) as real, 0.0)
  }

  /** Gravity, scaled by the frame's `delta`, is added to the velocity, then
      the position moves by the new velocity. */
  function Fall(b: BallState, delta: real): (r: BallState)
    ensures r.vx == b.vx && r.vy == b.vy + GravityY * delta
    ensures r.x == b.x + r.vx && r.y == b.y + r.vy
  {
    var vx := b.vx + GravityX * delta;
    var vy := b.vy + GravityY * delta;
    BallState(b.x + vx, b.y + vy, vx, vy)
  }

  /** The bottom wall, then the top wall. */
  function VerticalWalls(b: BallState, height: real): (r: BallState)
    ensures r.x == b.x && r.vx == b.vx
    ensures height > 2.0 * Radius ==> Radius <= r.y <= height - Radius
    ensures height > 2.0 * Radius && b.y >= height - Radius ==> r.y == height - Radius && r.vy == -b.vy
    ensures b.y <= Radius ==> r.y == Radius && r.vy == TopKick
    ensures height <= 2.0 * Radius && b.y >= height - Radius ==> r.y == Radius && r.vy == TopKick
    ensures Radius < b.y < height - Radius ==> r == b
  {
    var bottomed := if b.y >= height - Radius then b.(vy := -b.vy, y := height - Radius) else b;
    if bottomed.y <= Radius then bottomed.(y := Radius, vy := TopKick) else bottomed
  }

  /** The ball leaves a paddle or a side wall at `x` with horizontal speed `vx`,
      its vertical speed lowered by `Lift`. */
  function Relaunch(b: BallState, x: real, vx: real): BallState
  {
    b.(x := x, vx := vx, vy := b.vy - Lift)
  }

  /** The left paddle is in play and covers the ball. */
  predicate LeftHit(s: GameState)
  {
    && s.turn == Left
    && s.ball.x <= BoardSize + Radius
    && s.left.top <= s.ball.y <= s.left.top + s.left.length
  }

  /** The ball reaches the left wall without a left paddle hit, whoever's turn it is. */
  predicate LeftMiss(s: GameState)
  {
    !LeftHit(s) && s.ball.x <= Radius
  }

  /** The left-side rule: a paddle hit scores a point for the left board, a
      wall miss takes one away; both serve to the right and pass the turn. */
  function LeftRule(s: GameState, u: real): (r: GameState)
    requires 0.0 <= u < 1.0
    ensures r.hasBegun == s.hasBegun && r.right == s.right && r.ball.y == s.ball.y
    ensures r.left == s.left.(score := r.left.score)
    ensures LeftHit(s) ==> r.ball.x == BoardSize + Radius && r.left.score == s.left.score + 1
    ensures LeftMiss(s) ==> r.ball.x == Radius && r.left.score == s.left.score - 1
    ensures LeftHit(s) || LeftMiss(s) ==>
              && ServeMin as real <= r.ball.vx <= ServeMax as real && r.ball.vx == r.ball.vx.Floor as real
              && r.ball.vy == s.ball.vy - Lift
              && r.turn == Right
    ensures !LeftHit(s) && !LeftMiss(s) ==> r == s
  {
    var vx := GetRandom(ServeMin, ServeMax, u) as real;
    if LeftHit(s) then
      s.(ball := Relaunch(s.ball, BoardSize + Radius, vx), left := s.left.(score := s.left.score + 1), turn := Right)
    else if s.ball.x <= Radius then
      s.(ball := Relaunch(s.ball, Radius, vx), left := s.left.(score := s.left.score - 1), turn := Right)
    else
      s
  }

  /** The right paddle is in play (after the left rule) and covers the ball. */
  predicate RightHit(s: GameState, width: real)
  {
    && s.turn == Right
    && s.ball.x >= width - BoardSize - Radius
    && s.right.top <= s.ball.y <= s.right.top + s.right.length
  }

  /** The ball reaches the right wall without a right paddle hit. */
  predicate RightMiss(s: GameState, width: real)
  {
    !RightHit(s, width) && s.ball.x >= width - Radius
  }

  /** The right-side rule, the mirror of the left one: serves go left, with a
      negative horizontal speed, and the turn passes to the left. */
  function RightRule(s: GameState, width: real, u: real): (r: GameState)
    requires 0.0 <= u < 1.0
    ensures r.hasBegun == s.hasBegun && r.left == s.left && r.ball.y == s.ball.y
    ensures r.right == s.right.(score := r.right.score)
    ensures RightHit(s, width) ==> r.ball.x == width - BoardSize - Radius && r.right.score == s.right.score + 1
    ensures RightMiss(s, width) ==> r.ball.x == width - Radius && r.right.score == s.right.score - 1
    ensures RightHit(s, width) || RightMiss(s, width) ==>
              && -(ServeMax as real) <= r.ball.vx <= -(ServeMin as real) && r.ball.vx == r.ball.vx.Floor as real
              && r.ball.vy == s.ball.vy - Lift
              && r.turn == Left
    ensures !RightHit(s, width) && !RightMiss(s, width) ==> r == s
  {
    var vx := -(GetRandom(ServeMin, ServeMax, u) as real);
    if RightHit(s, width) then
      s.(ball := Relaunch(s.ball, width - BoardSize - Radius, vx), right := s.right.(score := s.right.score + 1), turn := Left)
    else if s.ball.x >= width - Radius then
      s.(ball := Relaunch(s.ball, width - Radius, vx), right := s.right.(score := s.right.score - 1), turn := Left)
    else
      s
  }

  /** The ball as it stands after gravity, motion and the two walls, before
      either side's rule. */
  function Walled(s: GameState, delta: real, height: real): (r: GameState)
    ensures r == s.(ball := r.ball)
    ensures r.ball.x == s.ball.x + s.ball.vx && r.ball.vx == s.ball.vx
    ensures height > 2.0 * Radius ==> Radius <= r.ball.y <= height - Radius
  {
    s.(ball := VerticalWalls(Fall(s.ball, delta), height))
  }

  /** One frame of `Ball.render`: motion, walls, the left rule, then the right
      rule on the state the left rule left. Only the ball, the turn and the
      two scores change, each score by at most one point; on a screen wide
      enough for both paddles the ball ends inside it horizontally, and on one
      taller than the ball it ends inside it vertically. */
  function BallStep(s: GameState, delta: real, width: real, height: real, uLeft: real, uRight: real): (r: GameState)
    requires 0.0 <= uLeft < 1.0 && 0.0 <= uRight < 1.0
    ensures r.hasBegun == s.hasBegun
    ensures r.left == s.left.(score := r.left.score) && r.right == s.right.(score := r.right.score)
    ensures -1 <= r.left.score - s.left.score <= 1
    ensures -1 <= r.right.score - s.right.score <= 1
    ensures width >= 2.0 * (BoardSize + Radius) ==> Radius <= r.ball.x <= width - Radius
    ensures height > 2.0 * Radius ==> Radius <= r.ball.y <= height - Radius
  {
    RightRule(LeftRule(Walled(s, delta, height), uLeft), width, uRight)
  }

  /** A frame in which the ball touches nothing: the vertical speed gains
      `5 * delta`, the horizontal one is kept, the position moves by the new
      velocity, and turn and scores stay. */
  lemma QuietFlight(s: GameState, delta: real, width: real, height: real, uLeft: real, uRight: real)
    requires 0.0 <= uLeft < 1.0 && 0.0 <= uRight < 1.0
    requires var y := s.ball.y + s.ball.vy + GravityY * delta;
             Radius < y < height - Radius
    requires var x := s.ball.x + s.ball.vx;
             BoardSize + Radius < x < width - BoardSize - Radius
    ensures BallStep(s, delta, width, height, uLeft, uRight)
            == s.(ball := BallState(s.ball.x + s.ball.vx, s.ball.y + s.ball.vy + GravityY * delta,
                                    s.ball.vx, s.ball.vy + GravityY * delta))
  {
  }

  /** The right side's rule reads the turn as the left rule set it: in a court
      wider than both paddles, a tick that fires the left rule never fires the
      right one. */
  lemma OneSidePerTick(s: GameState, width: real, uLeft: real)
    requires 0.0 <= uLeft < 1.0
    requires width > 2.0 * (BoardSize + Radius)
    requires LeftHit(s) || LeftMiss(s)
    ensures var t := LeftRule(s, uLeft);
            !RightHit(t, width) && !RightMiss(t, width)
  {
  }

  /** ... but in a court exactly as wide as both paddles, one tick can score a
      left hit and then a right hit, since the left hit hands the turn to the
      right before the right rule looks at it. */
  lemma NarrowCourtDoubleHit()
    ensures var s := GameState(true, Left, BallState(15.0, 100.0, -5.0, 0.0),
                               Paddle(50.0, 200.0, 0, 0), Paddle(50.0, 200.0, 0, 0));
            var r := BallStep(s, 0.0, 40.0, 500.0, 0.0, 0.0);
            r.left.score == 1 && r.right.score == 1 && r.turn == Left
  {
  }

  // ---------------------------------------------------------------- a paddle

  /** One frame of `Board.render` (two `if`s, one after the other): up by a
      step while above 0, down by a step while its top is above
      `height - length`; nothing but `top` changes. */
  function PaddleStep(p: Paddle, height: real): (r: Paddle)
    ensures r == p.(top := r.top)
    ensures p.moving == 1 && p.top > 0.0 ==> r.top == p.top - PaddleSpeed
    ensures p.moving == -1 && p.top < height - p.length ==> r.top == p.top + PaddleSpeed
    ensures !(p.moving == 1 && p.top > 0.0) && !(p.moving == -1 && p.top < height - p.length) ==> r.top == p.top
  {
    var raised := if p.moving == 1 && p.top > 0.0 then p.top - PaddleSpeed else p.top;
    var lowered := if p.moving == -1 && raised < height - p.length then raised + PaddleSpeed else raised;
    p.(top := lowered)
  }

  /** The `k`-th position a paddle can take: `k` steps below the top. */
  function GridLine(k: nat): real
  {
    k as real * PaddleSpeed
  }

  /** A paddle's `top` is a whole number of steps, so top ≥ 0: the paddle is
      at or under the screen's top edge. */
  ghost predicate OnGrid(t: real)
  {
    exists k: nat :: GridLine(k) == t
  }

  lemma OnGridNonNegative(t: real)
    requires OnGrid(t)
    ensures t >= 0.0
  {
    var k: nat :| GridLine(k) == t;
  }

  /** A paddle that starts at a grid line stays on one, so its `top` never
      becomes negative (top ≥ 0), whatever the screen height or the direction. */
  lemma PaddleStepOnGrid(p: Paddle, height: real)
    requires OnGrid(p.top)
    ensures OnGrid(PaddleStep(p, height).top) && PaddleStep(p, height).top >= 0.0
  {
    var k: nat :| GridLine(k) == p.top;
    var raised := if p.moving == 1 && p.top > 0.0 then p.top - PaddleSpeed else p.top;
    var j: nat := if p.moving == 1 && p.top > 0.0 then k - 1 else k;
    assert GridLine(j) == raised;
    var lowered := PaddleStep(p, height).top;
    var i: nat := if lowered == raised then j else j + 1;
    assert GridLine(i) == lowered;
  }

  /** The code's lower bound: a paddle whose top is less than a step past
      `height - length` stays so; it can pass that line, by less than a step. */
  lemma PaddleStepBelowFloor(p: Paddle, height: real)
    requires p.top < height - p.length + PaddleSpeed
    ensures PaddleStep(p, height).top < height - p.length + PaddleSpeed
  {
  }

  /** When `height - length` itself is a grid line the paddle stops exactly
      on it and never goes past. */
  lemma PaddleStepStopsOnFloor(p: Paddle, height: real)
    requires OnGrid(p.top) && OnGrid(height - p.length)
    requires p.top <= height - p.length
    ensures PaddleStep(p, height).top <= height - p.length
  {
    var k: nat :| GridLine(k) == p.top;
    var n: nat :| GridLine(n) == height - p.length;
    assert k <= n;
  }

  /** The paddle can end a frame lower than `height - length`: on a screen
      1005 high the length is 402, and a paddle at 600 moving down goes to 610. */
  lemma PaddleOvershoot()
    ensures var p := Paddle(600.0, LengthRatio * 1005.0, -1, 0);
            PaddleStep(p, 1005.0).top == 610.0 > 1005.0 - p.length
  {
  }

  // ---------------------------------------------------------------- input

  function Moving(s: GameState, side: Side): int
  {
    if side == Left then s.left.moving else s.right.moving
  }

  function SetMoving(s: GameState, side: Side, m: int): GameState
  {
    if side == Left then s.(left := s.left.(moving := m)) else s.(right := s.right.(moving := m))
  }

  /** The keydown handler. The first key only starts the game; after that an
      arrow key sets the direction of the board whose turn it is, and leaves
      the other board alone; any other key does nothing. No key moves a
      paddle, the ball, the turn or a score. */
  function OnKeyDown(s: GameState, key: string): (r: GameState)
    ensures r.turn == s.turn && r.ball == s.ball
    ensures r.left == s.left.(moving := r.left.moving) && r.right == s.right.(moving := r.right.moving)
    ensures !s.hasBegun ==> r == s.(hasBegun := true)
    ensures s.hasBegun ==> r.hasBegun && Moving(r, s.turn.Other()) == Moving(s, s.turn.Other())
    ensures s.hasBegun && key == "ArrowUp" ==> Moving(r, s.turn) == 1
    ensures s.hasBegun && key == "ArrowDown" ==> Moving(r, s.turn) == -1
    ensures s.hasBegun && key != "ArrowUp" && key != "ArrowDown" ==> r == s
  {
    if !s.hasBegun then s.(hasBegun := true)
    else if key == "ArrowUp" then SetMoving(s, s.turn, 1)
    else if key == "ArrowDown" then SetMoving(s, s.turn, -1)
    else s
  }

  /** The keyup handler: any key released stops both boards. */
  function OnKeyUp(s: GameState): (r: GameState)
    ensures r.left.moving == 0 && r.right.moving == 0
    ensures r.hasBegun == s.hasBegun && r.turn == s.turn && r.ball == s.ball
    ensures r.left == s.left.(moving := 0) && r.right == s.right.(moving := 0)
  {
    SetMoving(SetMoving(s, Left, 0), Right, 0)
  }

  /** The click handler: it starts a game that has not begun and is a no-op
      on one that has, so in both cases it only ensures `hasBegun`. */
  function OnClick(s: GameState): (r: GameState)
    ensures r == s.(hasBegun := true)
    ensures s.hasBegun ==> r == s
  {
    if s.hasBegun then s else s.(hasBegun := true)
  }

  /** After a key is released, the paddles hold still on the next frame. */
  lemma KeyUpHoldsPaddles(s: GameState, height: real)
    ensures var r := OnKeyUp(s);
            PaddleStep(r.left, height).top == s.left.top && PaddleStep(r.right, height).top == s.right.top
  {
  }

  /** Once the game has begun, pressing a key twice is the same as pressing it once. */
  lemma KeyDownIdempotent(s: GameState, key: string)
    requires s.hasBegun
    ensures OnKeyDown(OnKeyDown(s, key), key) == OnKeyDown(s, key)
  {
  }

  // ---------------------------------------------------------------- frames

  /** The state the constructor and `init` build before the first frame:
      turn to the right, a ball served from (50, 50), two boards at the top
      with no score and no direction. */
  function Start(width: real, height: real, u: real): (r: GameState)
    requires 0.0 <= u < 1.0
    ensures !r.hasBegun && r.turn == Right
    ensures r.ball.x == StartX && r.ball.y == StartY && r.ball.vy == 0.0
    ensures ServeMin as real <= r.ball.vx <= ServeMax as real && r.ball.vx == r.ball.vx.Floor as real
    ensures r.left == r.right == Paddle(0.0, height * LengthRatio, 0, 0)
  {
    var board := Paddle(0.0, height * LengthRatio, 0, 0);
    GameState(false, Right, Serve(StartX, StartY, u), board, board)
  }

  /** One call of `Pong.render`: the ball first, against the paddles where
      they stood, then the left paddle, then the right one. */
  function Frame(s: GameState, delta: real, width: real, height: real, uLeft: real, uRight: real): (r: GameState)
    requires 0.0 <= uLeft < 1.0 && 0.0 <= uRight < 1.0
    ensures r.hasBegun == s.hasBegun
    ensures r.left.length == s.left.length && r.left.moving == s.left.moving
    ensures r.right.length == s.right.length && r.right.moving == s.right.moving
    ensures -1 <= r.left.score - s.left.score <= 1
    ensures -1 <= r.right.score - s.right.score <= 1
    ensures -PaddleSpeed <= r.left.top - s.left.top <= PaddleSpeed
    ensures -PaddleSpeed <= r.right.top - s.right.top <= PaddleSpeed
    ensures OnGrid(s.left.top) ==> OnGrid(r.left.top) && r.left.top >= 0.0
    ensures OnGrid(s.right.top) ==> OnGrid(r.right.top) && r.right.top >= 0.0
    ensures width >= 2.0 * (BoardSize + Radius) ==> Radius <= r.ball.x <= width - Radius
    ensures height > 2.0 * Radius ==> Radius <= r.ball.y <= height - Radius
  {
    var t := BallStep(s, delta, width, height, uLeft, uRight);
    assert OnGrid(t.left.top) ==> OnGrid(PaddleStep(t.left, height).top) by {
      if OnGrid(t.left.top) { PaddleStepOnGrid(t.left, height); }
    }
    assert OnGrid(t.right.top) ==> OnGrid(PaddleStep(t.right, height).top) by {
      if OnGrid(t.right.top) { PaddleStepOnGrid(t.right, height); }
    }
    t.(left := PaddleStep(t.left, height), right := PaddleStep(t.right, height))
  }

  /** The first frame, drawn by `init` with `delta` 0: on any screen larger
      than 105 by 60 nothing is touched, so the ball has moved once by its
      serve speed and the scores and turn are as built. */
  lemma FirstFrame(width: real, height: real, uServe: real, uLeft: real, uRight: real)
    requires 0.0 <= uServe < 1.0 && 0.0 <= uLeft < 1.0 && 0.0 <= uRight < 1.0
    requires width > StartX + ServeMax as real + BoardSize + Radius
    requires height > StartY + Radius
    ensures var s := Start(width, height, uServe);
            var r := Frame(s, 0.0, width, height, uLeft, uRight);
            && r.ball == s.ball.(x := StartX + s.ball.vx)
            && r.turn == Right && !r.hasBegun
            && r.left == s.left && r.right == s.right
            && r.left.score == 0 && r.right.score == 0
            && r.left.moving == 0 && r.right.moving == 0
  {
  }
}
