/** The motion and collision resolver of the game. For each moving layer it
    computes the tentative position (next position plus velocity) and the
    shape's bounding box there, once; then, for the x axis and then the y
    axis, it (1) reflects off the fence, (2) applies the first matching one of
    four outcomes: a hit on paddle 1, a hit on paddle 2, a goal for player 1, a
    goal for player 2, and (3) commits the tentative position unless a goal is
    pending. The paddle and goal tests read the layer's committed next
    position, so the y pass sees what the x pass committed.

    Paddle 1 is the resolver's second argument: the gold paddle near the
    bottom of the screen (y grows downwards), hit when the ball is at or
    below row 134; paddle 2 is the black paddle near the top, hit at or above
    row 21. A ball reaching row 20 past paddle 2 scores for player 1, one
    reaching row 135 past paddle 1 scores for player 2.

    The pure functions here are the specification; the methods at the end do
    the same thing to the objects, field by field. */
module Resolver {
  import opened Geometry
  import opened Scene
  import opened Game

  /** A ball whose next position is at or below this row can hit paddle 1. */
  const Paddle1Row: int := 134
  /** A ball whose next position is at or above this row can hit paddle 2. */
  const Paddle2Row: int := 21
  /** How far from a paddle's centre, horizontally, the ball still hits it. */
  const PaddleReach: int := 18
  /** The rows at which a ball scores for player 1 and for player 2. */
  const Goal1Row: int := 20
  const Goal2Row: int := 135
  /** The ball's x velocity after a goal. */
  const RestartSpeed: int := 5
  /** Buzzer periods played on a hit on paddle 1 and on paddle 2. */
  const Paddle1Tone: int := 600
  const Paddle2Tone: int := 500

  /** What the resolver changes besides the moving layer itself: the two
      paddles' colours and the game state it touches. */
  datatype Shared = Shared(paddle1Color: Color, paddle2Color: Color, goal: int,
                           p1Score: int, p2Score: int, player1Score: int, player2Score: int,
                           period: int)

  /** The part of a moving layer that the resolver changes. */
  datatype Ball = Ball(posNext: Vec2, velocity: Vec2, color: Color)

  /** One moving layer in the middle of its pass: the layer, the tentative
      position `newPos`, and the shared state. */
  datatype Pass = Pass(ball: Ball, newPos: Vec2, shared: Shared)

  /** A moving layer's shape and changeable part. */
  datatype Mover = Mover(shape: Shape, ball: Ball)

  /** The outcome of the paddle and goal tests, in their order of priority. */
  datatype Event = HitPaddle1 | HitPaddle2 | GoalPlayer1 | GoalPlayer2 | NoEvent

  /** Whether `box` leaves `fence` on `axis`, on either side. */
  predicate OutsideFence(box: Region, fence: Region, axis: Axis) {
    box.topLeft.Get(axis) < fence.topLeft.Get(axis) || box.botRight.Get(axis) > fence.botRight.Get(axis)
  }

  /** Whether `x` is within reach of a paddle centred at column `paddleX`. */
  predicate InReach(x: int, paddleX: int) {
    x <= paddleX + PaddleReach && x >= paddleX - PaddleReach
  }

  /** The first of the four tests that `ball` passes. Because a paddle-2 hit
      needs a row at or above 21 and the goal rows are 20 and 135, the tests
      are in effect four disjoint conditions. */
  function EventAt(ball: Vec2, paddle1X: int, paddle2X: int): (e: Event)
    ensures e == HitPaddle1 <==> ball.y >= Paddle1Row && InReach(ball.x, paddle1X)
    ensures e == HitPaddle2 <==> ball.y <= Paddle2Row && InReach(ball.x, paddle2X)
    ensures e == GoalPlayer1 <==> ball.y == Goal1Row && !InReach(ball.x, paddle2X)
    ensures e == GoalPlayer2 <==> ball.y == Goal2Row && !InReach(ball.x, paddle1X)
    ensures e == NoEvent <==> (!(ball.y >= Paddle1Row && InReach(ball.x, paddle1X)) &&
      !(ball.y <= Paddle2Row && InReach(ball.x, paddle2X)) && ball.y != Goal1Row && ball.y != Goal2Row)
  {
    if ball.y >= Paddle1Row && InReach(ball.x, paddle1X) then HitPaddle1
    else if ball.y <= Paddle2Row && InReach(ball.x, paddle2X) then HitPaddle2
    else if ball.y == Goal1Row then GoalPlayer1
    else if ball.y == Goal2Row then GoalPlayer2
    else NoEvent
  }

  /** Negate the velocity on `axis` and move the tentative position on that
      axis by twice the negated velocity. */
  function Reflect(p: Pass, axis: Axis): Pass {
    var v := -p.ball.velocity.Get(axis);
    p.(ball := p.ball.(velocity := p.ball.velocity.With(axis, v)),
       newPos := p.newPos.With(axis, p.newPos.Get(axis) + 2 * v))
  }

  /** Step (1): reflection off the fence, which also silences the buzzer. */
  function FenceStep(p: Pass, axis: Axis, box: Region, fence: Region): Pass {
    if OutsideFence(box, fence, axis) then
      var q := Reflect(p, axis);
      q.(shared := q.shared.(period := 0))
    else p
  }

  /** A paddle hit: reflect on `axis` and add 1 to the x velocity. The back-off
      of the tentative position uses the reflected velocity before the
      increment. */
  function Bounce(p: Pass, axis: Axis): Pass {
    var q := Reflect(p, axis);
    q.(ball := q.ball.(velocity := q.ball.velocity.(x := q.ball.velocity.x + 1)))
  }

  /** A goal: the ball goes back to the centre, both as tentative and as
      committed next position, with the restart x speed, and a goal is
      pending. */
  function Restart(p: Pass): Pass {
    p.(ball := p.ball.(posNext := Center, velocity := p.ball.velocity.(x := RestartSpeed)),
       newPos := Center,
       shared := p.shared.(goal := 1))
  }

  /** Step (2): the first matching paddle or goal outcome, judged on the
      committed next position of the ball. */
  function EventStep(p: Pass, axis: Axis, paddle1X: int, paddle2X: int): Pass {
    match EventAt(p.ball.posNext, paddle1X, paddle2X)
    case HitPaddle1 =>
      var q := Bounce(p, axis);
      q.(ball := q.ball.(color := Gold),
         shared := q.shared.(paddle1Color := Gold, paddle2Color := White, period := Paddle1Tone))
    case HitPaddle2 =>
      var q := Bounce(p, axis);
      q.(ball := q.ball.(color := Black),
         shared := q.shared.(paddle2Color := Black, paddle1Color := White, period := Paddle2Tone))
    case GoalPlayer1 =>
      var q := Restart(p);
      q.(shared := q.shared.(paddle2Color := Red, player1Score := q.shared.player1Score + 1,
                             p1Score := q.shared.p1Score + 1))
    case GoalPlayer2 =>
      var q := Restart(p);
      q.(shared := q.shared.(paddle1Color := Red, player2Score := q.shared.player2Score + 1,
                             p2Score := q.shared.p2Score + 1))
    case NoEvent => p
  }

  /** Step (3): commit the tentative position unless a goal is pending. */
  function Commit(p: Pass): Pass {
    if p.shared.goal != 1 then p.(ball := p.ball.(posNext := p.newPos)) else p
  }

  /** One axis pass. */
  function AxisStep(p: Pass, axis: Axis, box: Region, fence: Region, paddle1X: int, paddle2X: int): Pass {
    Commit(EventStep(FenceStep(p, axis, box, fence), axis, paddle1X, paddle2X))
  }

  /** The first `n` axis passes. */
  function Axes(p: Pass, n: nat, box: Region, fence: Region, paddle1X: int, paddle2X: int): Pass
    requires n <= 2
  {
    if n == 0 then p
    else AxisStep(Axes(p, n - 1, box, fence, paddle1X, paddle2X), n - 1, box, fence, paddle1X, paddle2X)
  }

  /** The tentative position of a ball: its next position plus its velocity. */
  function Tentative(b: Ball): Vec2 {
    b.posNext.Add(b.velocity)
  }

  /** The resolver's work on one moving layer. */
  function BallStep(sh: Shared, b: Ball, shape: Shape, fence: Region, paddle1X: int, paddle2X: int): Pass {
    var start := Pass(b, Tentative(b), sh);
    var box := shape.bounds(Tentative(b));
    AxisStep(AxisStep(start, 0, box, fence, paddle1X, paddle2X), 1, box, fence, paddle1X, paddle2X)
  }

  /** The resolver's work on a moving-layer list, in list order: the shared
      state threads through the layers and every layer gets its result. */
  function Advance(sh: Shared, ms: seq<Mover>, fence: Region, paddle1X: int, paddle2X: int): (r: (Shared, seq<Ball>))
    ensures |r.1| == |ms|
    ensures r.0.p1Score >= sh.p1Score && r.0.p2Score >= sh.p2Score
    ensures r.0.player1Score - r.0.p1Score == sh.player1Score - sh.p1Score
    ensures r.0.player2Score - r.0.p2Score == sh.player2Score - sh.p2Score
  {
    if ms == [] then (sh, [])
    else
      var before := Advance(sh, ms[..|ms| - 1], fence, paddle1X, paddle2X);
      var last := ms[|ms| - 1];
      var p := BallStep(before.0, last.ball, last.shape, fence, paddle1X, paddle2X);
      BallStepScores(before.0, last.ball, last.shape, fence, paddle1X, paddle2X);
      (p.shared, before.1 + [p.ball])
  }

  /** Advancing one more layer of the list. */
  lemma AdvanceSnoc(sh: Shared, ms: seq<Mover>, k: nat, fence: Region, paddle1X: int, paddle2X: int)
    requires k < |ms|
    ensures var before := Advance(sh, ms[..k], fence, paddle1X, paddle2X);
      var p := BallStep(before.0, ms[k].ball, ms[k].shape, fence, paddle1X, paddle2X);
      Advance(sh, ms[..k + 1], fence, paddle1X, paddle2X) == (p.shared, before.1 + [p.ball])
  {
    assert ms[..k + 1][..k] == ms[..k];
  }

  // ---------------------------------------------------------------------
  // Properties of one axis pass

  /** Fence reflection: leaving the fence on an axis negates the velocity on
      that axis, moves the tentative position on that axis by twice the
      negated velocity and silences the buzzer; nothing else changes. */
  lemma FenceReflects(p: Pass, axis: Axis, box: Region, fence: Region)
    requires OutsideFence(box, fence, axis)
    ensures var r := FenceStep(p, axis, box, fence);
      r.ball.velocity == p.ball.velocity.With(axis, -p.ball.velocity.Get(axis)) &&
      r.newPos == p.newPos.With(axis, p.newPos.Get(axis) - 2 * p.ball.velocity.Get(axis)) &&
      r.shared == p.shared.(period := 0) &&
      r.ball.posNext == p.ball.posNext && r.ball.color == p.ball.color
  {
  }

  /** Inside the fence on an axis, the fence step does nothing. */
  lemma FenceInside(p: Pass, axis: Axis, box: Region, fence: Region)
    requires !OutsideFence(box, fence, axis)
    ensures FenceStep(p, axis, box, fence) == p
  {
  }

  /** A hit on paddle 1: the velocity on the current axis is negated and then
      the x velocity gains 1 (so on the x pass it becomes 1 minus the old
      one); the tentative position on the axis moves by twice the negated
      velocity; paddle 1 and the ball turn gold, paddle 2 white, and the tone
      period becomes 600. Scores, goal flag and next position do not change. */
  lemma Paddle1Hit(p: Pass, axis: Axis, paddle1X: int, paddle2X: int)
    requires p.ball.posNext.y >= Paddle1Row && InReach(p.ball.posNext.x, paddle1X)
    ensures var r := EventStep(p, axis, paddle1X, paddle2X);
      var v := p.ball.velocity;
      (if axis == 0 then r.ball.velocity == Vec2(-v.x + 1, v.y) else r.ball.velocity == Vec2(v.x + 1, -v.y)) &&
      r.newPos == p.newPos.With(axis, p.newPos.Get(axis) - 2 * v.Get(axis)) &&
      r.ball.color == Gold && r.shared.paddle1Color == Gold && r.shared.paddle2Color == White &&
      r.shared.period == Paddle1Tone &&
      r.shared.(paddle1Color := p.shared.paddle1Color, paddle2Color := p.shared.paddle2Color,
                period := p.shared.period) == p.shared &&
      r.ball.posNext == p.ball.posNext
  {
  }

  /** A hit on paddle 2, when paddle 1 was not hit: the same reflection and
      speed-up, with paddle 2 and the ball black, paddle 1 white and tone
      period 500. */
  lemma Paddle2Hit(p: Pass, axis: Axis, paddle1X: int, paddle2X: int)
    requires p.ball.posNext.y <= Paddle2Row && InReach(p.ball.posNext.x, paddle2X)
    ensures var r := EventStep(p, axis, paddle1X, paddle2X);
      var v := p.ball.velocity;
      (if axis == 0 then r.ball.velocity == Vec2(-v.x + 1, v.y) else r.ball.velocity == Vec2(v.x + 1, -v.y)) &&
      r.newPos == p.newPos.With(axis, p.newPos.Get(axis) - 2 * v.Get(axis)) &&
      r.ball.color == Black && r.shared.paddle2Color == Black && r.shared.paddle1Color == White &&
      r.shared.period == Paddle2Tone &&
      r.shared.(paddle1Color := p.shared.paddle1Color, paddle2Color := p.shared.paddle2Color,
                period := p.shared.period) == p.shared &&
      r.ball.posNext == p.ball.posNext
  {
  }

  /** A goal for player 1 (the ball at row 20 and out of paddle 2's reach):
      player 1's score and displayed digit each gain exactly 1, player 2's do
      not change, the ball is put at the centre with x velocity 5, a goal is
      pending and paddle 2 turns red. The commit that follows leaves the
      ball at the centre. */
  lemma Goal1(p: Pass, axis: Axis, paddle1X: int, paddle2X: int)
    requires p.ball.posNext.y == Goal1Row && !InReach(p.ball.posNext.x, paddle2X)
    ensures var r := EventStep(p, axis, paddle1X, paddle2X);
      r == Commit(r) &&
      r.shared == p.shared.(p1Score := p.shared.p1Score + 1, player1Score := p.shared.player1Score + 1,
                            goal := 1, paddle2Color := Red) &&
      r.ball == p.ball.(posNext := Center, velocity := p.ball.velocity.(x := RestartSpeed)) &&
      r.newPos == Center
  {
  }

  /** A goal for player 2 (the ball at row 135 and out of paddle 1's reach),
      symmetric to a goal for player 1, with paddle 1 turning red. */
  lemma Goal2(p: Pass, axis: Axis, paddle1X: int, paddle2X: int)
    requires p.ball.posNext.y == Goal2Row && !InReach(p.ball.posNext.x, paddle1X)
    ensures var r := EventStep(p, axis, paddle1X, paddle2X);
      r == Commit(r) &&
      r.shared == p.shared.(p2Score := p.shared.p2Score + 1, player2Score := p.shared.player2Score + 1,
                            goal := 1, paddle1Color := Red) &&
      r.ball == p.ball.(posNext := Center, velocity := p.ball.velocity.(x := RestartSpeed)) &&
      r.newPos == Center
  {
  }

  /** The fence and a paddle can both act in one pass: on the y pass a hit on
      paddle 1 right after a fence reflection undoes the reflection, so the y
      velocity and the tentative row are back where they started, while the x
      velocity still gains 1. */
  lemma FenceThenPaddle1(p: Pass, box: Region, fence: Region, paddle1X: int, paddle2X: int)
    requires OutsideFence(box, fence, 1)
    requires p.ball.posNext.y >= Paddle1Row && InReach(p.ball.posNext.x, paddle1X)
    ensures var r := EventStep(FenceStep(p, 1, box, fence), 1, paddle1X, paddle2X);
      r.ball.velocity == Vec2(p.ball.velocity.x + 1, p.ball.velocity.y) &&
      r.newPos == p.newPos && r.shared.period == Paddle1Tone
  {
  }

  // ---------------------------------------------------------------------
  // Properties of the whole step of one moving layer

  /** A step in which nothing happens: when no goal is pending, the box at
      the tentative position is inside the fence on both axes, and neither
      the next position (seen by the x pass) nor the tentative position
      (seen by the y pass, after the x pass committed it) triggers a paddle
      or goal outcome, the ball's next position becomes the old one plus the
      velocity, and the velocity, the colours, the scores and all the rest
      are unchanged. */
  lemma NoEventStep(sh: Shared, b: Ball, shape: Shape, fence: Region, paddle1X: int, paddle2X: int)
    requires sh.goal != 1
    requires !OutsideFence(shape.bounds(Tentative(b)), fence, 0)
    requires !OutsideFence(shape.bounds(Tentative(b)), fence, 1)
    requires EventAt(b.posNext, paddle1X, paddle2X) == NoEvent
    requires EventAt(Tentative(b), paddle1X, paddle2X) == NoEvent
    ensures var r := BallStep(sh, b, shape, fence, paddle1X, paddle2X);
      r.ball == b.(posNext := b.posNext.Add(b.velocity)) && r.shared == sh
  {
  }

  /** No goal at the centre: the ball put back at the centre triggers
      nothing, so a goal on the x pass is followed by a quiet y pass. */
  lemma CenterIsQuiet(paddle1X: int, paddle2X: int)
    ensures EventAt(Center, paddle1X, paddle2X) == NoEvent
  {
  }

  /** While a goal is pending the ball does not move, except that a goal
      puts it back at the centre: its next position changes only when one of
      the scores goes up, and then it is the centre. */
  lemma FrozenWhileGoalPending(sh: Shared, b: Ball, shape: Shape, fence: Region, paddle1X: int, paddle2X: int)
    requires sh.goal == 1
    ensures var r := BallStep(sh, b, shape, fence, paddle1X, paddle2X);
      (r.shared.p1Score == sh.p1Score && r.shared.p2Score == sh.p2Score ==> r.ball.posNext == b.posNext) &&
      (r.shared.p1Score != sh.p1Score || r.shared.p2Score != sh.p2Score ==> r.ball.posNext == Center) &&
      r.shared.goal == 1
  {
    var start := Pass(b, Tentative(b), sh);
    var box := shape.bounds(Tentative(b));
    var a0 := AxisStep(start, 0, box, fence, paddle1X, paddle2X);
    var e := EventAt(b.posNext, paddle1X, paddle2X);
    if e == GoalPlayer1 || e == GoalPlayer2 {
      assert a0.ball.posNext == Center;
      CenterIsQuiet(paddle1X, paddle2X);
    } else {
      assert a0.ball.posNext == b.posNext;
      assert a0.shared.p1Score == sh.p1Score && a0.shared.p2Score == sh.p2Score;
    }
  }

  /** One axis pass scores exactly when its outcome is a goal, for the
      player the outcome names, and then puts the ball at the centre with a
      goal pending; otherwise the scores and the goal flag are unchanged. */
  lemma AxisStepScores(p: Pass, axis: Axis, box: Region, fence: Region, paddle1X: int, paddle2X: int)
    ensures var r := AxisStep(p, axis, box, fence, paddle1X, paddle2X);
      var e := EventAt(p.ball.posNext, paddle1X, paddle2X);
      var one := if e == GoalPlayer1 then 1 else 0;
      var two := if e == GoalPlayer2 then 1 else 0;
      r.shared.p1Score == p.shared.p1Score + one && r.shared.player1Score == p.shared.player1Score + one &&
      r.shared.p2Score == p.shared.p2Score + two && r.shared.player2Score == p.shared.player2Score + two &&
      r.shared.goal == (if one + two == 1 then 1 else p.shared.goal) &&
      (one + two == 1 ==> r.ball.posNext == Center)
  {
  }

  /** One step of one moving layer changes the scores by at most one goal in
      all, keeps each displayed digit in step with its score, and can only
      set the goal flag. */
  lemma BallStepScores(sh: Shared, b: Ball, shape: Shape, fence: Region, paddle1X: int, paddle2X: int)
    ensures var r := BallStep(sh, b, shape, fence, paddle1X, paddle2X);
      sh.p1Score <= r.shared.p1Score && sh.p2Score <= r.shared.p2Score &&
      r.shared.p1Score + r.shared.p2Score <= sh.p1Score + sh.p2Score + 1 &&
      r.shared.player1Score - r.shared.p1Score == sh.player1Score - sh.p1Score &&
      r.shared.player2Score - r.shared.p2Score == sh.player2Score - sh.p2Score &&
      (r.shared.goal == sh.goal || r.shared.goal == 1)
  {
    var start := Pass(b, Tentative(b), sh);
    var box := shape.bounds(Tentative(b));
    var a0 := AxisStep(start, 0, box, fence, paddle1X, paddle2X);
    AxisStepScores(start, 0, box, fence, paddle1X, paddle2X);
    AxisStepScores(a0, 1, box, fence, paddle1X, paddle2X);
    var e := EventAt(b.posNext, paddle1X, paddle2X);
    if e == GoalPlayer1 || e == GoalPlayer2 {
      CenterIsQuiet(paddle1X, paddle2X);
    }
  }

  /** A contact on both passes: when the ball is within paddle 1's reach at
      its next position and still at its tentative position, and no goal is
      pending, one step adds 2 to the x velocity (the x pass reflects it and
      adds 1, the y pass adds 1 again) and reflects the y velocity. */
  lemma Paddle1ContactOnBothPasses(sh: Shared, b: Ball, shape: Shape, fence: Region, paddle1X: int, paddle2X: int)
    requires sh.goal != 1
    requires !OutsideFence(shape.bounds(Tentative(b)), fence, 0)
    requires !OutsideFence(shape.bounds(Tentative(b)), fence, 1)
    requires b.posNext.y >= Paddle1Row && InReach(b.posNext.x, paddle1X)
    requires var t := Vec2(b.posNext.x - b.velocity.x, b.posNext.y + b.velocity.y);
      t.y >= Paddle1Row && InReach(t.x, paddle1X)
    ensures var r := BallStep(sh, b, shape, fence, paddle1X, paddle2X);
      r.ball.velocity == Vec2(-b.velocity.x + 2, -b.velocity.y)
  {
  }

  // ---------------------------------------------------------------------
  // The resolver on the objects

  function BallOf(ml: MovLayer): Ball
    reads ml, ml.layer
  {
    Ball(ml.layer.posNext, ml.velocity, ml.layer.color)
  }

  function SharedOf(g: GameState, ml1: MovLayer, ml2: MovLayer): Shared
    reads g, ml1.layer, ml2.layer
  {
    Shared(ml1.layer.color, ml2.layer.color, g.goal, g.p1Score, g.p2Score,
           g.player1Score, g.player2Score, g.buzzerPeriod)
  }

  function Snapshot(ml: MovLayer, newPos: Vec2, g: GameState, ml1: MovLayer, ml2: MovLayer): Pass
    reads ml, ml.layer, g, ml1.layer, ml2.layer
  {
    Pass(BallOf(ml), newPos, SharedOf(g, ml1, ml2))
  }

  function Movers(mls: seq<MovLayer>): seq<Mover>
    reads mls, set m | m in mls :: m.layer
  {
    seq(|mls|, i requires 0 <= i < |mls| reads mls, set m | m in mls :: m.layer =>
      Mover(mls[i].layer.shape, BallOf(mls[i])))
  }

  function Balls(mls: seq<MovLayer>): seq<Ball>
    reads mls, set m | m in mls :: m.layer
  {
    seq(|mls|, i requires 0 <= i < |mls| reads mls, set m | m in mls :: m.layer => BallOf(mls[i]))
  }

  /** Step (1) on the objects: reflection off the fence. */
  method ReflectOffFence(ml: MovLayer, ml1: MovLayer, ml2: MovLayer, g: GameState,
                         newPos: Vec2, box: Region, fence: Region, axis: Axis) returns (next: Vec2)
    modifies ml`velocity, g`buzzerPeriod
    ensures Snapshot(ml, next, g, ml1, ml2) == FenceStep(old(Snapshot(ml, newPos, g, ml1, ml2)), axis, box, fence)
  {
    next := newPos;
    if box.topLeft.Get(axis) < fence.topLeft.Get(axis) || box.botRight.Get(axis) > fence.botRight.Get(axis) {
      var velocity := -ml.velocity.Get(axis);
      ml.velocity := ml.velocity.With(axis, velocity);
      g.buzzerPeriod := 0;
      next := next.With(axis, next.Get(axis) + 2 * velocity);
    }
  }

  /** Step (2) on the objects: the paddle and goal tests, which read the
      layer's next position as committed by the previous pass. */
  method ResolveEvent(ml: MovLayer, ml1: MovLayer, ml2: MovLayer, g: GameState, newPos: Vec2, axis: Axis)
    returns (next: Vec2)
    requires ml.layer != ml1.layer && ml.layer != ml2.layer && ml1.layer != ml2.layer
    modifies ml`velocity, ml.layer`posNext, ml.layer`color, ml1.layer`color, ml2.layer`color
    modifies g`goal, g`p1Score, g`p2Score, g`player1Score, g`player2Score, g`buzzerPeriod
    ensures Snapshot(ml, next, g, ml1, ml2) ==
      EventStep(old(Snapshot(ml, newPos, g, ml1, ml2)), axis, ml1.layer.posNext.x, ml2.layer.posNext.x)
  {
    next := newPos;
    var ball := ml.layer.posNext;
    if ball.y >= Paddle1Row && ball.x <= ml1.layer.posNext.x + PaddleReach && ball.x >= ml1.layer.posNext.x - PaddleReach {
      var velocity := -ml.velocity.Get(axis);
      ml.velocity := ml.velocity.With(axis, velocity);
      ml1.layer.color := Gold;
      ml2.layer.color := White;
      ml.layer.color := Gold;
      ml.velocity := ml.velocity.(x := ml.velocity.x + 1);
      next := next.With(axis, next.Get(axis) + 2 * velocity);
      g.buzzerPeriod := Paddle1Tone;
    } else if ball.y <= Paddle2Row && ball.x <= ml2.layer.posNext.x + PaddleReach && ball.x >= ml2.layer.posNext.x - PaddleReach {
      var velocity := -ml.velocity.Get(axis);
      ml.velocity := ml.velocity.With(axis, velocity);
      ml2.layer.color := Black;
      ml1.layer.color := White;
      ml.layer.color := Black;
      ml.velocity := ml.velocity.(x := ml.velocity.x + 1);
      next := next.With(axis, next.Get(axis) + 2 * velocity);
      g.buzzerPeriod := Paddle2Tone;
    } else if ball.y == Goal1Row {
      ml2.layer.color := Red;
      g.player1Score := g.player1Score + 1;
      g.p1Score := g.p1Score + 1;
      next := next.(x := ScreenWidth / 2);
      next := next.(y := ScreenHeight / 2);
      g.goal := 1;
      ml.velocity := ml.velocity.(x := RestartSpeed);
      ml.layer.posNext := next;
    } else if ball.y == Goal2Row {
      ml1.layer.color := Red;
      g.player2Score := g.player2Score + 1;
      g.p2Score := g.p2Score + 1;
      next := next.(x := ScreenWidth / 2);
      next := next.(y := ScreenHeight / 2);
      g.goal := 1;
      ml.velocity := ml.velocity.(x := RestartSpeed);
      ml.layer.posNext := next;
    }
  }

  /** One axis pass over the objects: fence, paddle and goal tests, then the
      commit of the tentative position, skipped while a goal is pending. */
  method ResolveAxis(ml: MovLayer, ml1: MovLayer, ml2: MovLayer, g: GameState,
                     newPos: Vec2, box: Region, fence: Region, axis: Axis) returns (next: Vec2)
    requires ml.layer != ml1.layer && ml.layer != ml2.layer && ml1.layer != ml2.layer
    modifies ml`velocity, ml.layer`posNext, ml.layer`color, ml1.layer`color, ml2.layer`color
    modifies g`goal, g`p1Score, g`p2Score, g`player1Score, g`player2Score, g`buzzerPeriod
    ensures Snapshot(ml, next, g, ml1, ml2) ==
      AxisStep(old(Snapshot(ml, newPos, g, ml1, ml2)), axis, box, fence, ml1.layer.posNext.x, ml2.layer.posNext.x)
  {
    next := ReflectOffFence(ml, ml1, ml2, g, newPos, box, fence, axis);
    next := ResolveEvent(ml, ml1, ml2, g, next, axis);
    if g.goal != 1 {
      ml.layer.posNext := next;
    }
  }

  /** The resolver's work on one moving layer: the tentative position and its
      bounding box are computed once, then the x pass and the y pass run. */
  method AdvanceBall(ml: MovLayer, ml1: MovLayer, ml2: MovLayer, g: GameState, fence: Region)
    requires ml.layer != ml1.layer && ml.layer != ml2.layer && ml1.layer != ml2.layer
    modifies ml`velocity, ml.layer`posNext, ml.layer`color, ml1.layer`color, ml2.layer`color
    modifies g`goal, g`p1Score, g`p2Score, g`player1Score, g`player2Score, g`buzzerPeriod
    ensures var r := BallStep(old(SharedOf(g, ml1, ml2)), old(BallOf(ml)), ml.layer.shape, fence,
                              ml1.layer.posNext.x, ml2.layer.posNext.x);
      BallOf(ml) == r.ball && SharedOf(g, ml1, ml2) == r.shared
  {
    var newPos := ml.layer.posNext.Add(ml.velocity);
    var box := ml.layer.shape.bounds(newPos);
    ghost var start := Snapshot(ml, newPos, g, ml1, ml2);
    for axis := 0 to 2
      invariant Snapshot(ml, newPos, g, ml1, ml2) ==
        Axes(start, axis, box, fence, ml1.layer.posNext.x, ml2.layer.posNext.x)
    {
      newPos := ResolveAxis(ml, ml1, ml2, g, newPos, box, fence, axis);
    }
    assert Axes(start, 2, box, fence, ml1.layer.posNext.x, ml2.layer.posNext.x) ==
      AxisStep(AxisStep(start, 0, box, fence, ml1.layer.posNext.x, ml2.layer.posNext.x), 1, box, fence,
               ml1.layer.posNext.x, ml2.layer.posNext.x);
  }

  /** The resolver's work on entry `k` of a moving-layer list: that entry
      takes one `BallStep` and every other entry is left as it was. */
  method AdvanceAt(mls: seq<MovLayer>, k: nat, ml: MovLayer, ml1: MovLayer, ml2: MovLayer, fence: Region, g: GameState)
    requires k < |mls| && mls[k] == ml
    requires DistinctLayers(mls)
    requires forall m :: m in mls ==> m.layer != ml1.layer && m.layer != ml2.layer
    requires ml1.layer != ml2.layer
    modifies ml`velocity, ml.layer`posNext, ml.layer`color
    modifies ml1.layer`color, ml2.layer`color
    modifies g`goal, g`p1Score, g`p2Score, g`player1Score, g`player2Score, g`buzzerPeriod
    ensures var r := BallStep(old(SharedOf(g, ml1, ml2)), old(BallOf(ml)), ml.layer.shape, fence,
                              ml1.layer.posNext.x, ml2.layer.posNext.x);
      BallOf(ml) == r.ball && SharedOf(g, ml1, ml2) == r.shared
    ensures forall i :: 0 <= i < |mls| && i != k ==> BallOf(mls[i]) == old(BallOf(mls[i]))
    ensures ml1.layer.posNext == old(ml1.layer.posNext) && ml2.layer.posNext == old(ml2.layer.posNext)
  {
    assert ml in mls;
    AdvanceBall(ml, ml1, ml2, g, fence);
    forall i | 0 <= i < |mls| && i != k
      ensures BallOf(mls[i]) == old(BallOf(mls[i]))
    {
      assert mls[i].layer != ml.layer;
    }
  }

  /** The resolver over a moving-layer list, against the two paddles and the
      fence. Its result is the specification `Advance` of the list taken in
      order; the paddles' positions are read, never changed. */
  method MlAdvance(mls: seq<MovLayer>, ml1: MovLayer, ml2: MovLayer, fence: Region, g: GameState)
    requires DistinctLayers(mls)
    requires forall m :: m in mls ==> m.layer != ml1.layer && m.layer != ml2.layer
    requires ml1.layer != ml2.layer
    modifies (set m | m in mls)`velocity
    modifies (set m | m in mls :: m.layer)`posNext, (set m | m in mls :: m.layer)`color
    modifies ml1.layer`color, ml2.layer`color
    modifies g`goal, g`p1Score, g`p2Score, g`player1Score, g`player2Score, g`buzzerPeriod
    ensures (SharedOf(g, ml1, ml2), Balls(mls)) ==
      Advance(old(SharedOf(g, ml1, ml2)), old(Movers(mls)), fence, ml1.layer.posNext.x, ml2.layer.posNext.x)
  {
    ghost var sh0 := SharedOf(g, ml1, ml2);
    ghost var movers := Movers(mls);
    ghost var x1, x2 := ml1.layer.posNext.x, ml2.layer.posNext.x;
    ghost var acc: (Shared, seq<Ball>) := (sh0, []);
    for k := 0 to |mls|
      invariant ml1.layer.posNext.x == x1 && ml2.layer.posNext.x == x2
      invariant acc == Advance(sh0, movers[..k], fence, x1, x2)
      invariant SharedOf(g, ml1, ml2) == acc.0
      invariant forall i :: 0 <= i < k ==> BallOf(mls[i]) == acc.1[i]
      invariant forall i :: k <= i < |mls| ==> BallOf(mls[i]) == movers[i].ball
    {
      AdvanceAt(mls, k, mls[k], ml1, ml2, fence, g);
      AdvanceSnoc(sh0, movers, k, fence, x1, x2);
      acc := Advance(sh0, movers[..k + 1], fence, x1, x2);
    }
    assert movers[..|mls|] == movers;
    assert Balls(mls) == acc.1;
  }
}
