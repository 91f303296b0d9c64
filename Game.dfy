/** Process-wide game state: the goal flag, both players' scores (as numbers and
    as the digit characters shown on screen), the background colour, the
    buzzer's tone period, the tick counter and the redraw flag, together with
    the game's constants. */
module Game {
  import opened Geometry

  /** A player who reaches this score wins. */
  const WinScore: int := 5

  /** The resolver runs once every this many timer ticks. */
  const CadenceTicks: int := 20

  /** Character code of the digit '0'; a displayed score is this plus the score. */
  const DigitZero: int := '0' as int

  class GameState {
    /** 1 after a goal until a paddle move is taken; the ball's next position
        is frozen while it is 1. */
    var goal: int
    var p1Score: int
    var p2Score: int
    /** The characters drawn next to "Player1:" and "Player2:", as codes. */
    var player1Score: int
    var player2Score: int
    var bgColor: Color
    /** The tone period last handed to the buzzer; 0 is silence. */
    var buzzerPeriod: int
    /** Timer ticks since the resolver last ran. */
    var count: int
    var redrawScreen: bool

    /** The state in which the program starts: a goal is pending, both
        scores are 0, the background is violet and the buzzer is silent. */
    constructor ()
      ensures Valid()
      ensures goal == 1 && p1Score == 0 && p2Score == 0
      ensures player1Score == DigitZero && player2Score == DigitZero
      ensures bgColor == Violet && buzzerPeriod == 0 && count == 0 && redrawScreen
    {
      goal := 1;
      p1Score := 0;
      p2Score := 0;
      player1Score := DigitZero;
      player2Score := DigitZero;
      bgColor := Violet;
      buzzerPeriod := 0;
      count := 0;
      redrawScreen := true;
    }

    /** What holds in every state the program reaches: the goal flag is 0 or
        1, no score passes the winning score, each displayed digit matches its
        score, and the tick counter is below the cadence. */
    predicate Valid()
      reads this
    {
      (goal == 0 || goal == 1) &&
      0 <= p1Score <= WinScore && 0 <= p2Score <= WinScore &&
      player1Score == DigitZero + p1Score && player2Score == DigitZero + p2Score &&
      0 <= count < CadenceTicks
    }
  }
}
