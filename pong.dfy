/** The game's objects as the program keeps them: a `Ball`, two `Board`s and
    the `Pong` game that owns them and the input handlers. Every method
    changes exactly the fields the program changes, and its effect on the
    game's snapshot is the corresponding function of module Rules. */
module PongGame {
  import opened Random
  import opened Vectors
  import opened Rules

  class Ball {
    var x: real
    var y: real
    const radius: real := Radius
    var speed: Vector

    /** `new Ball(x, y)`: the horizontal speed is a draw from [10, 35]. */
    constructor (x: real, y: real, u: real)
      requires 0.0 <= u < 1.0
      ensures fresh(speed)
      ensures State() == Serve(x, y, u)
    {
      this.x := x;
      this.y := y;
      var vx := GetRandom(ServeMin, ServeMax, u);
      speed := new Vector(vx as real, 0.0);
    }

    function State(): BallState
      reads this, speed
    {
      BallState(x, y, speed.x, speed.y)
    }

    /** The update part of `Ball.render`: it moves this ball and bounces it
        off the walls and paddles of `game`, whose turn and scores it may
        change. `uLeft` and `uRight` are the draws of the two serves it may make. */
    method Render(game: Pong, delta: real, width: real, height: real, uLeft: real, uRight: real)
      requires game.Valid() && game.ball == this
      requires 0.0 <= uLeft < 1.0 && 0.0 <= uRight < 1.0
      modifies this`x, this`y, speed, game`turn, game.boardLeft`score, game.boardRight`score
      ensures game.Valid()
      ensures game.State() == BallStep(old(game.State()), delta, width, height, uLeft, uRight)
    {
      Move(game, delta, height);
      LeftSide(game, uLeft);
      RightSide(game, width, uRight);
    }

    /** Gravity, motion, then the bottom and the top wall. */
    method Move(game: Pong, delta: real, height: real)
      requires game.Valid() && game.ball == this
      modifies this`x, this`y, speed
      ensures game.Valid()
      ensures game.State() == Walled(old(game.State()), delta, height)
    {
      var g := new Vector(GravityX, GravityY);
      var pull := g.GetMultiplied(delta);
      speed.Add(pull);
      x := x + speed.x;
      y := y + speed.y;

      if y >= height - radius {
        speed.y := -speed.y;
        y := height - radius;
      }

      if y <= radius {
        speed.y := -speed.y;
        y := radius;
        speed.y := TopKick;
      }
    }

    /** The left paddle's hit, else the left wall's miss. */
    method LeftSide(game: Pong, u: real)
      requires game.Valid() && game.ball == this
      requires 0.0 <= u < 1.0
      modifies this`x, speed, game`turn, game.boardLeft`score
      ensures game.Valid()
      ensures game.State() == LeftRule(old(game.State()), u)
    {
      var left := game.boardLeft;
      if game.turn == Left && x <= BoardSize + radius && y >= left.top && y <= left.top + left.length {
        speed.x := -speed.x;
        x := BoardSize + radius;
        speed.x := GetRandom(ServeMin, ServeMax, u) as real;
        speed.y := speed.y - Lift;
        left.score := left.score + 1;
        game.turn := Right;
      } else if x <= radius {
        speed.x := -speed.x;
        x := radius;
        speed.x := GetRandom(ServeMin, ServeMax, u) as real;
        speed.y := speed.y - Lift;
        left.score := left.score - 1;
        game.turn := Right;
      }
    }

    /** The right paddle's hit, else the right wall's miss, on the turn as
        the left side left it. */
    method RightSide(game: Pong, width: real, u: real)
      requires game.Valid() && game.ball == this
      requires 0.0 <= u < 1.0
      modifies this`x, speed, game`turn, game.boardRight`score
      ensures game.Valid()
      ensures game.State() == RightRule(old(game.State()), width, u)
    {
      var right := game.boardRight;
      if game.turn == Right && x >= width - BoardSize - radius && y >= right.top && y <= right.top + right.length {
        speed.x := -speed.x;
        x := width - BoardSize - radius;
        speed.x := -(GetRandom(ServeMin, ServeMax, u) as real);
        speed.y := speed.y - Lift;
        right.score := right.score + 1;
        game.turn := Left;
      } else if x >= width - radius {
        speed.x := -speed.x;
        x := width - radius;
        speed.x := -(GetRandom(ServeMin, ServeMax, u) as real);
        speed.y := speed.y - Lift;
        right.score := right.score - 1;
        game.turn := Left;
      }
    }
  }

  class Board {
    var x: real
    var top: real
    var length: real
    const speed: real := PaddleSpeed
    var score: int
    var moving: int

    /** `new Board(x, y)`: the length is 0.4 of the screen height. */
    constructor (x: real, y: real, height: real)
      ensures this.x == x
      ensures State() == Paddle(y, height * LengthRatio, 0, 0)
      ensures y == 0.0 ==> Valid()
    {
      assert GridLine(0) == 0.0;
      this.x := x;
      top := y;
      length := height * LengthRatio;
      score := 0;
      moving := 0;
    }

    /** The board's `top` is a whole number of steps, at or under the screen's top edge (top ≥ 0). */
    ghost predicate Valid()
      reads this
    {
      OnGrid(top)
    }

    function State(): Paddle
      reads this
    {
      Paddle(top, length, moving, score)
    }

    /** The movement part of `Board.render`. */
    method Render(height: real)
      requires Valid()
      modifies this`top
      ensures Valid() && top >= 0.0
      ensures State() == PaddleStep(old(State()), height)
    {
      ghost var before := State();
      if moving == 1 && top > 0.0 {
        top := top - speed;
      }
      if moving == -1 && top < height - length {
        top := top + speed;
      }
      PaddleStepOnGrid(before, height);
    }
  }

  /** The game: whether it has begun, whose turn it is, the ball and the two boards. */
  class Pong {
    var hasBegun: bool
    var turn: Side
    var ball: Ball
    var boardLeft: Board
    var boardRight: Board

    ghost predicate Valid()
      reads this, boardLeft, boardRight
    {
      boardLeft != boardRight && boardLeft.Valid() && boardRight.Valid()
    }

    function State(): GameState
      reads this, ball, ball.speed, boardLeft, boardRight
    {
      GameState(hasBegun, turn, ball.State(), boardLeft.State(), boardRight.State())
    }

    /** `new Pong(app)`: not yet begun, then `init`: turn to the right, a new
        ball at (50, 50), a board at each side, and the first frame drawn
        with `delta` 0. */
    constructor (width: real, height: real, uServe: real, uLeft: real, uRight: real)
      requires 0.0 <= uServe < 1.0 && 0.0 <= uLeft < 1.0 && 0.0 <= uRight < 1.0
      ensures Valid()
      ensures fresh(ball) && fresh(ball.speed) && fresh(boardLeft) && fresh(boardRight)
      ensures boardLeft.x == 0.0 && boardRight.x == width - BoardSize
      ensures State() == Frame(Start(width, height, uServe), 0.0, width, height, uLeft, uRight)
    {
      hasBegun := false;
      turn := Right;
      ball := new Ball(StartX, StartY, uServe);
      boardLeft := new Board(0.0, 0.0, height);
      boardRight := new Board(width - BoardSize, 0.0, height);
      new;
      Render(0.0, width, height, uLeft, uRight);
    }

    /** `Pong.render` without its drawing: the ball, then the two boards. */
    method Render(delta: real, width: real, height: real, uLeft: real, uRight: real)
      requires Valid()
      requires 0.0 <= uLeft < 1.0 && 0.0 <= uRight < 1.0
      modifies this`turn, ball`x, ball`y, ball.speed, boardLeft`score, boardLeft`top, boardRight`score, boardRight`top
      ensures Valid()
      ensures boardLeft.top >= 0.0 && boardRight.top >= 0.0
      ensures State() == Frame(old(State()), delta, width, height, uLeft, uRight)
    {
      ball.Render(this, delta, width, height, uLeft, uRight);
      boardLeft.Render(height);
      boardRight.Render(height);
    }

    /** The keydown listener. */
    method KeyDown(key: string)
      modifies this`hasBegun, boardLeft`moving, boardRight`moving
      requires Valid()
      ensures Valid()
      ensures State() == OnKeyDown(old(State()), key)
    {
      if !hasBegun {
        hasBegun := true;
        return;
      }
      if key == "ArrowUp" {
        if turn == Left { boardLeft.moving := 1; } else { boardRight.moving := 1; }
      } else if key == "ArrowDown" {
        if turn == Left { boardLeft.moving := -1; } else { boardRight.moving := -1; }
      }
    }

    /** The keyup listener. */
    method KeyUp()
      modifies boardLeft`moving, boardRight`moving
      requires Valid()
      ensures Valid()
      ensures State() == OnKeyUp(old(State()))
    {
      boardRight.moving := 0;
      boardLeft.moving := 0;
    }

    /** The click listener. */
    method Click()
      modifies this`hasBegun
      requires Valid()
      ensures Valid()
      ensures State() == OnClick(old(State()))
    {
      if hasBegun {
        return;
      }
      hasBegun := true;
    }
  }

  /** `new Pong(app)` followed by what the host and the player do: the
      listeners and the frames apply to the game the constructor built. */
  method Opening(width: real, height: real, u0: real, u1: real, u2: real)
    requires 0.0 <= u0 < 1.0 && 0.0 <= u1 < 1.0 && 0.0 <= u2 < 1.0
  {
    var game := new Pong(width, height, u0, u1, u2);
    assert !game.hasBegun && game.boardLeft.moving == 0;
    game.Click();
    assert game.hasBegun;
    game.KeyDown("ArrowUp");
    game.Render(1.0, width, height, u1, u2);
    game.KeyUp();
    assert game.boardLeft.moving == 0 && game.boardRight.moving == 0;
    game.Render(1.0, width, height, u1, u2);
    assert game.boardLeft.top >= 0.0 && game.boardRight.top >= 0.0;
  }
}
