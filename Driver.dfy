/** The game logic of the periodic timer handler: the countdown shown during
    the intro, the win check and the choice of the winner, the cadence at
    which the resolver runs, and the paddle moves read from the switches.
    The switches are active low: a pressed switch reads as a 0 bit. */
module Driver {
  import opened Geometry
  import opened Scene
  import opened Game
  import opened Resolver

  datatype Option<T> = None | Some(value: T)

  /** What one tick of the handler did. */
  datatype Outcome = Waiting | Advanced | GameOver(winner: string)

  /** Travel limits of the paddles: a paddle moves right only from at most
      column 102, the bottom paddle moves left only from at least column 27,
      the top paddle only from at least column 26. */
  const RightLimit: int := 102
  const BottomLeftLimit: int := 27
  const TopLeftLimit: int := 26
  /** How far a paddle moves for one switch press. */
  const PaddleStep: int := 5

  // ---------------------------------------------------------------------
  // The intro countdown

  /** The text of the countdown when the intro's busy loop counter is `wait`.
      The counter counts passes of that loop, all of which run inside the
      first timer tick; it is not a tick count. */
  function CountdownLabel(wait: int): string {
    if wait < 50 then "3"
    else if wait < 100 then "2"
    else if wait < 150 then "1"
    else "Begin!"
  }

  /** While the loop counter is below 150 the countdown is a single digit,
      three minus the number of whole 50-pass periods elapsed; once the
      counter is 150 or more it reads "Begin!". */
  lemma CountdownDigit(wait: int)
    requires 0 <= wait
    ensures wait < 150 ==> CountdownLabel(wait) == [('3' as int - wait / 50) as char]
    ensures wait >= 150 <==> CountdownLabel(wait) == "Begin!"
  {
  }

  /** The countdown never goes back up. */
  lemma CountdownMonotone(w1: int, w2: int)
    requires w1 <= w2 < 150
    ensures CountdownLabel(w2)[0] <= CountdownLabel(w1)[0]
  {
  }

  // ---------------------------------------------------------------------
  // The win check

  /** The winner's banner text once a player has reached the winning score;
      player 1 is named whenever player 1 has reached it. */
  function Winner(p1Score: int, p2Score: int): (w: Option<string>)
    ensures w.Some? <==> p1Score == WinScore || p2Score == WinScore
    ensures w == Some("Player1!") <==> p1Score == WinScore
    ensures w == Some("Player2!") <==> p1Score != WinScore && p2Score == WinScore
  {
    if p1Score == WinScore || p2Score == WinScore then
      Some(if p1Score == WinScore then "Player1!" else "Player2!")
    else None
  }

  // ---------------------------------------------------------------------
  // The cadence

  /** The tick counter after one more tick. */
  function NextCount(c: int): int {
    if c + 1 == CadenceTicks then 0 else c + 1
  }

  /** The tick counter after `n` ticks from the start. */
  function CountAfter(n: nat): int {
    if n == 0 then 0 else NextCount(CountAfter(n - 1))
  }

  /** How many of the first `n` ticks ran the resolver: those at which the
      counter reached the cadence. */
  function AdvancesIn(n: nat): nat {
    if n == 0 then 0
    else AdvancesIn(n - 1) + (if CountAfter(n - 1) + 1 == CadenceTicks then 1 else 0)
  }

  /** The counter runs 0, 1, ..., 19, 0, ...: after `n` ticks it is `n` modulo
      20, and the resolver has run once per 20 ticks, on ticks 20, 40, .... */
  lemma {:induction false} Cadence(n: nat)
    ensures CountAfter(n) == n % CadenceTicks
    ensures AdvancesIn(n) == n / CadenceTicks
  {
    if n > 0 {
      Cadence(n - 1);
      var m := n - 1;
      assert m == CadenceTicks * (m / CadenceTicks) + m % CadenceTicks;
      if m % CadenceTicks + 1 == CadenceTicks {
        assert n == CadenceTicks * (m / CadenceTicks + 1);
      } else {
        assert n == CadenceTicks * (m / CadenceTicks) + (m % CadenceTicks + 1);
      }
    }
  }

  // ---------------------------------------------------------------------
  // The paddle moves

  /** Whether switch `bit` is pressed in the active-low bit mask. */
  predicate Pressed(switches: bv16, bit: nat)
    requires bit < 16
  {
    switches & (1 << bit) == 0
  }

  /** The paddles' columns after the switch moves, and whether any move was
      made. */
  datatype PaddleMoves = PaddleMoves(bottomX: int, topX: int, moved: bool)

  /** The four switch tests in the handler's order: switch 1 moves the bottom
      paddle right, switch 0 moves it left, switch 2 moves the top paddle
      left, switch 3 moves it right; each move is taken only inside the travel
      limits, judged on the column the previous move left. */
  function MovePaddles(bottomX: int, topX: int, switches: bv16): PaddleMoves {
    var bottomRight := Pressed(switches, 1) && bottomX <= RightLimit;
    var b1 := if bottomRight then bottomX + PaddleStep else bottomX;
    var bottomLeft := Pressed(switches, 0) && b1 >= BottomLeftLimit;
    var b2 := if bottomLeft then b1 - PaddleStep else b1;
    var topLeft := Pressed(switches, 2) && topX >= TopLeftLimit;
    var t1 := if topLeft then topX - PaddleStep else topX;
    var topRight := Pressed(switches, 3) && t1 <= RightLimit;
    var t2 := if topRight then t1 + PaddleStep else t1;
    PaddleMoves(b2, t2, bottomRight || bottomLeft || topLeft || topRight)
  }

  /** Travel: a bottom paddle in columns 22 to 107 stays there, and a top
      paddle in columns 21 to 107 stays there. */
  lemma PaddleTravel(bottomX: int, topX: int, switches: bv16)
    ensures var r := MovePaddles(bottomX, topX, switches);
      (22 <= bottomX <= 107 ==> 22 <= r.bottomX <= 107) &&
      (21 <= topX <= 107 ==> 21 <= r.topX <= 107)
  {
  }

  /** Step size: a press moves its paddle by exactly 5 columns, so a paddle
      ends 5 left, 5 right or where it was; with no switch pressed nothing
      moves; and a paddle that ends somewhere else means a move was made. */
  lemma PaddleSteps(bottomX: int, topX: int, switches: bv16)
    ensures var r := MovePaddles(bottomX, topX, switches);
      (r.bottomX == bottomX - PaddleStep || r.bottomX == bottomX || r.bottomX == bottomX + PaddleStep) &&
      (r.topX == topX - PaddleStep || r.topX == topX || r.topX == topX + PaddleStep) &&
      (!Pressed(switches, 0) && !Pressed(switches, 1) ==> r.bottomX == bottomX) &&
      (!Pressed(switches, 2) && !Pressed(switches, 3) ==> r.topX == topX) &&
      (r.moved ==> Pressed(switches, 0) || Pressed(switches, 1) || Pressed(switches, 2) || Pressed(switches, 3)) &&
      (r.bottomX != bottomX || r.topX != topX ==> r.moved)
  {
  }

  /** A single press of the bottom paddle's right switch within the travel
      limit moves it exactly 5 columns right; of its left switch, 5 left. */
  lemma BottomSinglePress(bottomX: int, topX: int, switches: bv16)
    ensures Pressed(switches, 1) && !Pressed(switches, 0) && bottomX <= RightLimit ==>
      MovePaddles(bottomX, topX, switches).bottomX == bottomX + PaddleStep
    ensures Pressed(switches, 0) && !Pressed(switches, 1) && bottomX >= BottomLeftLimit ==>
      MovePaddles(bottomX, topX, switches).bottomX == bottomX - PaddleStep
  {
  }

  /** A single press of the top paddle's left switch within the travel
      limit moves it exactly 5 columns left; of its right switch, 5 right. */
  lemma TopSinglePress(bottomX: int, topX: int, switches: bv16)
    ensures Pressed(switches, 2) && !Pressed(switches, 3) && topX >= TopLeftLimit ==>
      MovePaddles(bottomX, topX, switches).topX == topX - PaddleStep
    ensures Pressed(switches, 3) && !Pressed(switches, 2) && topX <= RightLimit ==>
      MovePaddles(bottomX, topX, switches).topX == topX + PaddleStep
  {
  }

  /** A move is reported, and so the goal flag is cleared, even when the
      paddles end where they started: with both bottom switches pressed and
      the bottom paddle in columns 22 to 102, switch 1 moves it 5 right and
      switch 0 moves it straight back. */
  lemma BothBottomSwitches(bottomX: int, topX: int, switches: bv16)
    requires Pressed(switches, 0) && Pressed(switches, 1)
    requires !Pressed(switches, 2) && !Pressed(switches, 3)
    requires 22 <= bottomX <= RightLimit
    ensures var r := MovePaddles(bottomX, topX, switches);
      r.moved && r.bottomX == bottomX && r.topX == topX
  {
  }

  /** The switch tests on the objects: each move that is taken shifts its
      paddle's next column by 5, clears the goal flag and asks for a redraw. */
  method MoveOnSwitches(g: GameState, bottom: MovLayer, top: MovLayer, switches: bv16)
    requires bottom.layer != top.layer
    modifies bottom.layer`posNext, top.layer`posNext, g`goal, g`redrawScreen
    ensures var m := MovePaddles(old(bottom.layer.posNext.x), old(top.layer.posNext.x), switches);
      bottom.layer.posNext == old(bottom.layer.posNext).(x := m.bottomX) &&
      top.layer.posNext == old(top.layer.posNext).(x := m.topX) &&
      g.goal == (if m.moved then 0 else old(g.goal)) &&
      g.redrawScreen == (m.moved || old(g.redrawScreen))
  {
    if switches & (1 << 1) == 0 {
      if bottom.layer.posNext.x <= RightLimit {
        bottom.layer.posNext := bottom.layer.posNext.(x := bottom.layer.posNext.x + PaddleStep);
        g.redrawScreen := true;
        g.goal := 0;
      }
    }
    if switches & (1 << 0) == 0 {
      if bottom.layer.posNext.x >= BottomLeftLimit {
        bottom.layer.posNext := bottom.layer.posNext.(x := bottom.layer.posNext.x - PaddleStep);
        g.redrawScreen := true;
        g.goal := 0;
      }
    }
    if switches & (1 << 2) == 0 {
      if top.layer.posNext.x >= TopLeftLimit {
        top.layer.posNext := top.layer.posNext.(x := top.layer.posNext.x - PaddleStep);
        g.redrawScreen := true;
        g.goal := 0;
      }
    }
    if switches & (1 << 3) == 0 {
      if top.layer.posNext.x <= RightLimit {
        top.layer.posNext := top.layer.posNext.(x := top.layer.posNext.x + PaddleStep);
        g.redrawScreen := true;
        g.goal := 0;
      }
    }
  }

  // ---------------------------------------------------------------------
  // The handler

  /** The resolver run on the program's one-ball list: its effect is one ball
      step of the ball against the bottom paddle (paddle 1) and the top paddle
      (paddle 2). */
  method AdvanceOnly(g: GameState, ball: MovLayer, bottom: MovLayer, top: MovLayer, fence: Region)
    requires ball.layer != bottom.layer && ball.layer != top.layer && bottom.layer != top.layer
    modifies ball`velocity, ball.layer`posNext, ball.layer`color, bottom.layer`color, top.layer`color
    modifies g`goal, g`p1Score, g`p2Score, g`player1Score, g`player2Score, g`buzzerPeriod
    ensures var r := BallStep(old(SharedOf(g, bottom, top)), old(BallOf(ball)), ball.layer.shape, fence,
                              bottom.layer.posNext.x, top.layer.posNext.x);
      BallOf(ball) == r.ball && SharedOf(g, bottom, top) == r.shared
    ensures bottom.layer.posNext == old(bottom.layer.posNext) && top.layer.posNext == old(top.layer.posNext)
  {
    ghost var b := BallOf(ball);
    assert Movers([ball]) == [Mover(ball.layer.shape, b)];
    assert [Mover(ball.layer.shape, b)][..0] == [];
    MlAdvance([ball], bottom, top, fence, g);
    assert Balls([ball])[0] == BallOf(ball);
  }

  /** A tick on which the counter reaches the cadence and no one has won:
      the resolver runs, then the switches move the paddles, a redraw is
      requested and the counter restarts. */
  method CadenceTick(g: GameState, ball: MovLayer, bottom: MovLayer, top: MovLayer, fence: Region, switches: bv16)
    requires g.count == CadenceTicks && (g.goal == 0 || g.goal == 1)
    requires 0 <= g.p1Score < WinScore && 0 <= g.p2Score < WinScore
    requires g.player1Score == DigitZero + g.p1Score && g.player2Score == DigitZero + g.p2Score
    requires ball.layer != bottom.layer && ball.layer != top.layer && bottom.layer != top.layer
    modifies g`goal, g`p1Score, g`p2Score, g`player1Score, g`player2Score, g`buzzerPeriod
    modifies g`redrawScreen, g`count
    modifies ball`velocity, ball.layer`posNext, ball.layer`color
    modifies bottom.layer`posNext, bottom.layer`color, top.layer`posNext, top.layer`color
    ensures g.Valid() && g.count == 0 && g.redrawScreen
    ensures var r := BallStep(old(SharedOf(g, bottom, top)), old(BallOf(ball)), ball.layer.shape, fence,
                              old(bottom.layer.posNext.x), old(top.layer.posNext.x));
      var m := MovePaddles(old(bottom.layer.posNext.x), old(top.layer.posNext.x), switches);
      BallOf(ball) == r.ball &&
      bottom.layer.posNext == old(bottom.layer.posNext).(x := m.bottomX) &&
      top.layer.posNext == old(top.layer.posNext).(x := m.topX) &&
      bottom.layer.color == r.shared.paddle1Color && top.layer.color == r.shared.paddle2Color &&
      g.goal == (if m.moved then 0 else r.shared.goal) &&
      g.p1Score == r.shared.p1Score && g.p2Score == r.shared.p2Score &&
      g.player1Score == r.shared.player1Score && g.player2Score == r.shared.player2Score &&
      g.buzzerPeriod == r.shared.period
  {
    ghost var sh := SharedOf(g, bottom, top);
    ghost var b := BallOf(ball);
    ghost var x1, x2 := bottom.layer.posNext.x, top.layer.posNext.x;
    AdvanceOnly(g, ball, bottom, top, fence);
    BallStepScores(sh, b, ball.layer.shape, fence, x1, x2);
    MoveOnSwitches(g, bottom, top, switches);
    g.redrawScreen := true;
    g.count := 0;
  }

  /** One timer tick. The counter goes up; once a player has the winning
      score the game is over: the background turns white and nothing else
      changes. Otherwise, on every 20th tick the resolver runs on the ball
      against the bottom paddle (its paddle 1) and the top paddle (its paddle
      2), then the switches move the paddles, a redraw is requested and the
      counter starts again from 0. The game state stays consistent. */
  method WdtHandler(g: GameState, ball: MovLayer, bottom: MovLayer, top: MovLayer, fence: Region, switches: bv16)
    returns (outcome: Outcome)
    requires g.Valid()
    requires ball.layer != bottom.layer && ball.layer != top.layer && bottom.layer != top.layer
    modifies g, ball`velocity, ball.layer`posNext, ball.layer`color
    modifies bottom.layer`posNext, bottom.layer`color, top.layer`posNext, top.layer`color
    ensures var w := Winner(old(g.p1Score), old(g.p2Score));
      w.Some? ==>
        outcome == GameOver(w.value) && g.bgColor == White && g.count == old(g.count) + 1 &&
        unchanged(ball, ball.layer, bottom.layer, top.layer) &&
        g.goal == old(g.goal) && g.p1Score == old(g.p1Score) && g.p2Score == old(g.p2Score) &&
        g.player1Score == old(g.player1Score) && g.player2Score == old(g.player2Score) &&
        g.buzzerPeriod == old(g.buzzerPeriod) && g.redrawScreen == old(g.redrawScreen)
    ensures Winner(old(g.p1Score), old(g.p2Score)).None? ==>
      g.Valid() && g.count == NextCount(old(g.count)) &&
      (outcome == Advanced <==> old(g.count) + 1 == CadenceTicks) &&
      (outcome != Advanced ==>
        (outcome == Waiting && unchanged(ball, ball.layer, bottom.layer, top.layer) &&
         g.goal == old(g.goal) && g.p1Score == old(g.p1Score) && g.p2Score == old(g.p2Score) &&
         g.player1Score == old(g.player1Score) && g.player2Score == old(g.player2Score) &&
         g.buzzerPeriod == old(g.buzzerPeriod) && g.redrawScreen == old(g.redrawScreen) &&
         g.bgColor == old(g.bgColor)))
    ensures outcome == Advanced ==>
      var r := BallStep(old(SharedOf(g, bottom, top)), old(BallOf(ball)), ball.layer.shape, fence,
                        old(bottom.layer.posNext.x), old(top.layer.posNext.x));
      var m := MovePaddles(old(bottom.layer.posNext.x), old(top.layer.posNext.x), switches);
      BallOf(ball) == r.ball &&
      bottom.layer.posNext == old(bottom.layer.posNext).(x := m.bottomX) &&
      top.layer.posNext == old(top.layer.posNext).(x := m.topX) &&
      bottom.layer.color == r.shared.paddle1Color && top.layer.color == r.shared.paddle2Color &&
      g.goal == (if m.moved then 0 else r.shared.goal) &&
      g.p1Score == r.shared.p1Score && g.p2Score == r.shared.p2Score &&
      g.player1Score == r.shared.player1Score && g.player2Score == r.shared.player2Score &&
      g.buzzerPeriod == r.shared.period && g.redrawScreen && g.bgColor == old(g.bgColor)
  {
    g.count := g.count + 1;
    var winner := Winner(g.p1Score, g.p2Score);
    if winner.Some? {
      g.bgColor := White;
      return GameOver(winner.value);
    }
    if g.count == CadenceTicks {
      CadenceTick(g, ball, bottom, top, fence, switches);
      return Advanced;
    }
    return Waiting;
  }
}
