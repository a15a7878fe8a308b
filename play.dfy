/** A session of play: the game is built, then the host delivers a sequence of
    events (animation frames and input). Whatever that sequence, the paddles
    never rise above the screen's top, the moving flags keep their three
    values, the game never un-begins, and each score drifts by at most one
    point per frame. */
module Play {
  import opened Rules

  datatype Event =
    | Tick(delta: real, width: real, height: real, uLeft: real, uRight: real)
    | KeyDown(key: string)
    | KeyUp
    | Click

  /** The draws a frame hands to `getRandom` come from `Math.random()`. */
  predicate FairDraws(e: Event)
  {
    e.Tick? ==> 0.0 <= e.uLeft < 1.0 && 0.0 <= e.uRight < 1.0
  }

  predicate AllFair(es: seq<Event>)
  {
    forall i :: 0 <= i < |es| ==> FairDraws(es[i])
  }

  /** One event. The ticker is registered by `start()`, which runs exactly
      when a listener sets `hasBegun`; before that the host's frames do not
      reach the game. */
  function Step(s: GameState, e: Event): (r: GameState)
    requires FairDraws(e)
    ensures e.Tick? && !s.hasBegun ==> r == s
    ensures e.Tick? && s.hasBegun ==> r == Frame(s, e.delta, e.width, e.height, e.uLeft, e.uRight)
    ensures e.Tick? ==> r.hasBegun == s.hasBegun
    ensures !e.Tick? ==> r.ball == s.ball && r.turn == s.turn
    ensures (e.KeyDown? || e.Click?) ==> r.hasBegun
  {
    match e
    case Tick(delta, width, height, uLeft, uRight) =>
      if s.hasBegun then Frame(s, delta, width, height, uLeft, uRight) else s
    case KeyDown(key) => OnKeyDown(s, key)
    case KeyUp => OnKeyUp(s)
    case Click => OnClick(s)
  }

  function Run(s: GameState, es: seq<Event>): GameState
    requires AllFair(es)
    decreases |es|
  {
    if es == [] then s else Run(Step(s, es[0]), es[1..])
  }

  /** The number of animation frames in `es`. */
  function Ticks(es: seq<Event>): nat
    decreases |es|
  {
    if es == [] then 0 else (if es[0].Tick? then 1 else 0) + Ticks(es[1..])
  }

  /** The state right after the constructor: `init` and its first frame. On
      any screen the left rule cannot fire on that frame (the ball starts at
      x = 50 + vx with the turn on the right), while on a narrow one the right
      rule may. */
  function Launch(width: real, height: real, uServe: real, uLeft: real, uRight: real): (r: GameState)
    requires 0.0 <= uServe < 1.0 && 0.0 <= uLeft < 1.0 && 0.0 <= uRight < 1.0
    ensures !r.hasBegun
    ensures r.left.score == 0 && -1 <= r.right.score <= 1
    ensures r.left.moving == 0 && r.right.moving == 0
    ensures r.left.top == 0.0 && r.right.top == 0.0
    ensures r.left.length == r.right.length == height * LengthRatio
  {
    Frame(Start(width, height, uServe), 0.0, width, height, uLeft, uRight)
  }

  /** What every reachable state satisfies. */
  ghost predicate Sound(s: GameState)
  {
    && OnGrid(s.left.top) && OnGrid(s.right.top)
    && -1 <= s.left.moving <= 1 && -1 <= s.right.moving <= 1
  }

  lemma LaunchSound(width: real, height: real, uServe: real, uLeft: real, uRight: real)
    requires 0.0 <= uServe < 1.0 && 0.0 <= uLeft < 1.0 && 0.0 <= uRight < 1.0
    ensures Sound(Launch(width, height, uServe, uLeft, uRight))
    ensures !Launch(width, height, uServe, uLeft, uRight).hasBegun
  {
    assert GridLine(0) == 0.0;
  }

  lemma StepSound(s: GameState, e: Event)
    requires FairDraws(e) && Sound(s)
    ensures Sound(Step(s, e))
    ensures e.Tick? && !s.hasBegun ==> Step(s, e) == s
  {
  }

  /** Every event sequence keeps a sound state sound; in particular both
      paddles' tops stay ≥ 0, at or under the screen's top edge. */
  lemma {:induction false} RunSound(s: GameState, es: seq<Event>)
    requires AllFair(es) && Sound(s)
    ensures Sound(Run(s, es))
    ensures Run(s, es).left.top >= 0.0 && Run(s, es).right.top >= 0.0
    decreases |es|
  {
    if es == [] {
      OnGridNonNegative(s.left.top);
      OnGridNonNegative(s.right.top);
    } else {
      StepSound(s, es[0]);
      RunSound(Step(s, es[0]), es[1..]);
    }
  }

  /** From the launch on, whatever the events, no paddle rises above the top. */
  lemma PaddlesNeverAboveTop(width: real, height: real, uServe: real, uLeft: real, uRight: real, es: seq<Event>)
    requires 0.0 <= uServe < 1.0 && 0.0 <= uLeft < 1.0 && 0.0 <= uRight < 1.0
    requires AllFair(es)
    ensures var r := Run(Launch(width, height, uServe, uLeft, uRight), es);
            r.left.top >= 0.0 && r.right.top >= 0.0
  {
    LaunchSound(width, height, uServe, uLeft, uRight);
    RunSound(Launch(width, height, uServe, uLeft, uRight), es);
  }

  /** Scores move only on frames, by at most one point each. */
  lemma {:induction false} ScoreDrift(s: GameState, es: seq<Event>)
    requires AllFair(es)
    ensures -(Ticks(es) as int) <= Run(s, es).left.score - s.left.score <= Ticks(es)
    ensures -(Ticks(es) as int) <= Run(s, es).right.score - s.right.score <= Ticks(es)
    decreases |es|
  {
    if es != [] {
      ScoreDrift(Step(s, es[0]), es[1..]);
    }
  }

  /** Once begun, a game stays begun; and `hasBegun` is set by the first
      keydown or click, since frames and keyups keep it. */
  lemma {:induction false} BegunStaysBegun(s: GameState, es: seq<Event>)
    requires AllFair(es) && s.hasBegun
    ensures Run(s, es).hasBegun
    decreases |es|
  {
    if es != [] {
      BegunStaysBegun(Step(s, es[0]), es[1..]);
    }
  }

  /** Until the first keydown or click nothing moves: a state that has not
      begun and whose boards are still is left exactly as it is by frames
      and keyups. */
  lemma {:induction false} StillUntilStart(s: GameState, es: seq<Event>)
    requires AllFair(es) && !s.hasBegun
    requires s.left.moving == 0 && s.right.moving == 0
    requires forall i :: 0 <= i < |es| ==> es[i].Tick? || es[i].KeyUp?
    ensures Run(s, es) == s
    decreases |es|
  {
    if es != [] {
      assert Step(s, es[0]) == s;
      StillUntilStart(s, es[1..]);
    }
  }

  /** So from the launch, the game stays exactly as the constructor left it
      until a key is pressed or the screen is clicked. */
  lemma LaunchStillUntilStart(width: real, height: real, uServe: real, uLeft: real, uRight: real, es: seq<Event>)
    requires 0.0 <= uServe < 1.0 && 0.0 <= uLeft < 1.0 && 0.0 <= uRight < 1.0
    requires AllFair(es)
    requires forall i :: 0 <= i < |es| ==> es[i].Tick? || es[i].KeyUp?
    ensures Run(Launch(width, height, uServe, uLeft, uRight), es) == Launch(width, height, uServe, uLeft, uRight)
  {
    StillUntilStart(Launch(width, height, uServe, uLeft, uRight), es);
  }

  /** An arrow pressed while one side has the turn keeps that board moving
      after the turn passes: both boards can be moving at once, until a key
      is released. */
  lemma BothBoardsCanMove()
    ensures var s := GameState(true, Left, BallState(15.0, 100.0, -5.0, 0.0),
                               Paddle(50.0, 400.0, 0, 0), Paddle(50.0, 400.0, 0, 0));
            var r := Run(s, [KeyDown("ArrowUp"), Tick(1.0, 1000.0, 1000.0, 0.0, 0.0), KeyDown("ArrowDown")]);
            r.turn == Right && r.left.moving == 1 && r.right.moving == -1
  {
    var s := GameState(true, Left, BallState(15.0, 100.0, -5.0, 0.0),
                       Paddle(50.0, 400.0, 0, 0), Paddle(50.0, 400.0, 0, 0));
    var es := [KeyDown("ArrowUp"), Tick(1.0, 1000.0, 1000.0, 0.0, 0.0), KeyDown("ArrowDown")];
    var s1 := OnKeyDown(s, "ArrowUp");
    var s2 := Frame(s1, 1.0, 1000.0, 1000.0, 0.0, 0.0);
    assert LeftHit(Walled(s1, 1.0, 1000.0));
    assert s2.turn == Right;
    assert Run(s, es) == OnKeyDown(s2, "ArrowDown") by {
      assert es[1..][1..][1..] == [];
    }
  }
}
