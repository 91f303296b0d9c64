# Pong game core in Dafny

This is a model of the game logic of a two-player pong game for a small
microcontroller board with a 128×160 LCD and four push switches. The model
covers three parts:

- **The resolver** (`mlAdvance`). It moves the ball and resolves what it hits.
  - For each moving layer it computes the tentative position (next position
    plus velocity) and the shape's bounding box there.
  - Then it makes two passes, x then y. Each pass first reflects the ball off
    the field fence.
  - The pass then applies the first matching outcome: a hit on the bottom
    paddle, a hit on the top paddle, a goal for player 1 or a goal for player 2.
  - Finally the pass commits the tentative position, unless a goal is pending.
- **The renderer** (`movLayerDraw`). It promotes each moving layer's next
  position to its current position. Then it repaints each of their bounding
  boxes, pixel by pixel. Each pixel takes the colour of the first layer of the
  scene list that contains it, or the background.
- **The timer handler** (`wdt_c_handler`). It counts ticks and runs the
  resolver every 20th tick. It moves the paddles from the active-low switches;
  a move clears the goal flag. It also shows the intro countdown, and ends the
  game when a player reaches 5 points.

The modules:

- `Geometry` holds the vocabulary: points, regions, colours, and shapes. A
  shape is a pair of functions, as in the shape library.
- `Scene` holds the `Layer` and `MovLayer` classes, with fields updated in
  place. The linked lists become sequences in list order.
- `Game` holds the global game state as a class, its invariant `Valid`, and its
  initial values.
- `Render` holds the renderer. The pure functions `Probe`, `Paint` and `Frame`
  are its specification. Its methods are loops proved equal to them.
- `Resolver` holds the resolver. The pure functions are its specification:
  - `EventAt` picks the outcome; `FenceStep`, `EventStep` and `Commit` are the
    three stages of an axis pass;
  - `AxisStep`, `BallStep` and `Advance` build up one axis, one layer and the
    whole list.
  - Its methods do the same to the objects, statement by statement. Each is
    proved to leave the objects exactly as the function says.
- `Driver` holds the timer handler. Its pure parts are the countdown text, the
  winner, the cadence and the paddle moves. `WdtHandler` is one tick on the
  objects.

The resolver's parameters `ml1` and `ml2` are called paddle 1 and paddle 2
here. The program passes the bottom (gold) paddle as `ml1` and the top (black)
paddle as `ml2`. The source comments call the `ml1` test "top paddle" and the
`ml2` test "bottom paddle", and also call the bit-1 and bit-3 moves "left". The
model follows the code: paddle 1 is hit at rows ≥ 134, and bit 1 moves the
bottom paddle right (+5).

The goal flag is cleared whenever a switch's move is taken, not only when a
paddle ends somewhere new. With both bottom switches pressed, the paddle moves
5 right and then 5 back, and the flag is still cleared (`Driver.BothBottomSwitches`).
So the flag being cleared only when a paddle actually moves does not hold in
the source.

## Model

The specification functions have no rows of their own; the lemma and method rows that cite the same lines cover their definitions. They are:

- `MovePaddles`, `CountdownLabel` and `NextCount` in `Driver`;
- `FenceStep`, `EventStep`, `Commit`, `AxisStep` and `BallStep` in `Resolver`;
- `Probe`, `RowColors`, `Paint` and `Frame` in `Render`.

Which rows cover which functions:

- `CountdownLabel` is what `Driver.CountdownDigit` and `Driver.CountdownMonotone` are about.
- `Commit` (lines 243-245) is the last stage of each pass. `Resolver.ResolveAxis` holds it, and so do `Resolver.NoEventStep`, `Resolver.FrozenWhileGoalPending`, `Resolver.Goal1` and `Resolver.Goal2`.

| member | source | states |
|---|---|---|
| Game.GameState.constructor | pong/pong_game.c:21-25 | Initial state, as set at lines 21-25:<br>• a goal is pending;<br>• both scores are 0, and both displayed digits are '0'.<br>The background is violet and a redraw is requested (lines 251-252). The buzzer is silent (lines 269-270) and the counter is 0 (line 300). The invariant holds. |
| Render.ProbeFirstMatch | pong/pong_game.c:125-133 | A pixel covered by layer i and by no earlier layer gets layer i's colour. |
| Render.ProbeNoMatch | pong/pong_game.c:125-133 | A pixel that no layer covers gets the background colour. |
| Render.RowColorsAt | pong/pong_game.c:123-135 | Repainting one row writes one colour per column. Column x0 + k is at index k and holds the probed colour. An empty range writes nothing. |
| Render.BoxColorsLength | pong/pong_game.c:122-136 | The rows repainted so far hold exactly (rows × width) colours. |
| Render.BoxColorsAt | pong/pong_game.c:122-136 | The colour at row i, column k of the rows repainted so far is the probed colour of that pixel. |
| Render.PaintAt | pong/pong_game.c:118-136 | Repainting a box writes height × width colours, row-major. Index i·width + k holds the colour of pixel (left + k, top + i). |
| Render.PaintEmpty | pong/pong_game.c:122-123 | A box with no rows or no columns writes nothing. |
| Render.ProbeLayers | pong/pong_game.c:124-133 | The probe loop with its early exit returns exactly the first-match colour `Probe` of the scene list. |
| Render.PaintRow | pong/pong_game.c:123-135 | The column loop writes exactly `RowColors` for the row. |
| Render.PaintRegion | pong/pong_game.c:118-136 | The row loop writes exactly `Paint` of the bounding box. |
| Render.PaintBoxes | pong/pong_game.c:117-137 | The moving-layer loop writes the boxes of all moving layers one after another, in list order (`Frame`). |
| Render.SwapPositions | pong/pong_game.c:108-114 | Each moving layer's previous position becomes its old current position. Its current position becomes its next position. Nothing else changes. |
| Render.MovLayerDraw | pong/pong_game.c:103-138 | The swap, then the repaint of every moving layer's box at its new position; the next positions are unchanged. When every moving layer was already at its next position, the output is the frame of the state before the call. |
| Resolver.EventAt | pong/pong_game.c:177-238 | Which outcome applies, each one if and only if its condition holds:<br>• paddle 1 at rows ≥ 134 within 18 columns of paddle 1;<br>• paddle 2 at rows ≤ 21 within reach of paddle 2;<br>• goal for player 1 at row 20 out of paddle 2's reach;<br>• goal for player 2 at row 135 out of paddle 1's reach;<br>• otherwise none. |
| Resolver.Advance | pong/pong_game.c:163-247 | The resolver over a list gives one result per layer. Scores never go down, and each displayed digit stays in step with its score. |
| Resolver.FenceReflects | pong/pong_game.c:167-174 | Leaving the fence on an axis has these effects, and nothing else changes:<br>• that axis's velocity is negated;<br>• the tentative position on that axis moves by twice the negated velocity;<br>• the buzzer is silenced. |
| Resolver.FenceInside | pong/pong_game.c:167-174 | Inside the fence on an axis, the fence stage changes nothing. |
| Resolver.Paddle1Hit | pong/pong_game.c:177-189 | A hit on paddle 1 has these effects:<br>• the axis velocity is negated, then the x velocity gains 1;<br>• the tentative position backs off by twice the negated velocity;<br>• paddle 1 and the ball turn gold and paddle 2 turns white;<br>• the tone period becomes 600.<br>Scores, the goal flag and the next position do not change. |
| Resolver.Paddle2Hit | pong/pong_game.c:192-204 | A hit on paddle 2 has the same reflection and speed-up as on paddle 1, with these differences:<br>• paddle 2 and the ball turn black;<br>• paddle 1 turns white;<br>• the tone period becomes 500. |
| Resolver.Goal1 | pong/pong_game.c:207-220 | A goal for player 1 has these effects:<br>• player 1's score and digit each gain exactly 1;<br>• the ball goes to the centre (64, 80) with x velocity 5;<br>• a goal is pending and paddle 2 turns red.<br>The commit that follows changes nothing. |
| Resolver.Goal2 | pong/pong_game.c:223-238 | A goal for player 2 mirrors a goal for player 1, with paddle 1 turning red. |
| Resolver.FenceThenPaddle1 | pong/pong_game.c:166-189 | On the y pass, a fence reflection followed by a hit on paddle 1 cancels out on the y velocity and the tentative row. The x velocity still gains 1. |
| Resolver.NoEventStep | pong/pong_game.c:163-246 | With no goal pending, no fence contact and no outcome on either pass, the ball's next position advances by its velocity and nothing else changes. |
| Resolver.CenterIsQuiet | pong/pong_game.c:214-215 | The centre triggers no outcome, so a goal on the x pass is followed by a quiet y pass. |
| Resolver.FrozenWhileGoalPending | pong/pong_game.c:243-245 | While a goal is pending, the ball's next position changes only through a new goal, which puts it at the centre. The goal flag stays set. |
| Resolver.AxisStepScores | pong/pong_game.c:207-245 | A pass scores exactly when its outcome is a goal, for the player it names. It then sets the goal flag and leaves the ball at the centre; otherwise scores and the flag are unchanged. |
| Resolver.BallStepScores | pong/pong_game.c:163-247 | One layer's step adds at most one point in all, keeps digits in step with scores, and can only set the goal flag. |
| Resolver.Paddle1ContactOnBothPasses | pong/pong_game.c:177-189 | A ball still within paddle 1's zone after the x pass is hit again on the y pass. The step then gives x velocity −vx + 2 and y velocity −vy. |
| Resolver.ReflectOffFence | pong/pong_game.c:167-174 | The fence test on the objects does exactly what `FenceStep` says. |
| Resolver.ResolveEvent | pong/pong_game.c:177-238 | The paddle and goal branches on the objects do exactly what `EventStep` says. |
| Resolver.ResolveAxis | pong/pong_game.c:166-246 | One axis pass on the objects, including the commit, does exactly what `AxisStep` says. |
| Resolver.AdvanceBall | pong/pong_game.c:163-246 | Both passes over one moving layer do exactly what `BallStep` says, on the box computed once at the tentative position. |
| Resolver.AdvanceAt | pong/pong_game.c:163-246 | One turn of the list loop: the ball at that position takes one `BallStep`. Every other entry of the list and both paddles' next positions are left as they were. |
| Resolver.MlAdvance | pong/pong_game.c:154-248 | The resolver on the objects leaves the game state, the paddle colours and every moving layer as `Advance` says. The paddles' next positions do not change. |
| Driver.CountdownDigit | pong/pong_game.c:315-323 | While the intro loop counter `wait` is 0 to 149, the countdown shows the digit 3 − ⌊wait/50⌋. It shows "Begin!" exactly when `wait` is 150 or more. `wait` counts passes of the busy loop, all inside the first timer tick, not ticks. |
| Driver.CountdownMonotone | pong/pong_game.c:315-320 | The countdown digit never goes up as the loop counter grows. |
| Driver.Winner | pong/pong_game.c:334-337 | There is a winner if and only if a score is 5. It is "Player1!" if and only if player 1 has 5, and "Player2!" if and only if player 2 has 5 and player 1 does not. |
| Driver.Cadence | pong/pong_game.c:352-399 | After n ticks the counter is n mod 20, and the resolver has run ⌊n/20⌋ times. |
| Driver.PaddleTravel | pong/pong_game.c:357-396 | The bottom paddle never leaves columns 22 to 107, and the top paddle never leaves 21 to 107. |
| Driver.PaddleSteps | pong/pong_game.c:357-396 | Each paddle moves by −5, 0 or +5, and only when one of its switches is pressed. A move is reported only when a switch is pressed. A change of column implies a move. |
| Driver.BottomSinglePress | pong/pong_game.c:357-376 | Pressing only switch 1 within the limit moves the bottom paddle exactly 5 right. Pressing only switch 0 within the limit moves it exactly 5 left. |
| Driver.TopSinglePress | pong/pong_game.c:377-396 | Pressing only switch 2 within the limit (column ≥ 26) moves the top paddle exactly 5 left. Pressing only switch 3 within the limit (column ≤ 102) moves it exactly 5 right. |
| Driver.BothBottomSwitches | pong/pong_game.c:357-376 | With both bottom switches pressed and the paddle in columns 22 to 102, the paddle ends where it started. A move is still reported, so the goal flag is cleared. |
| Driver.MoveOnSwitches | pong/pong_game.c:355-396 | The four switch tests on the objects move the paddles as `MovePaddles` says. A move clears the goal flag and requests a redraw. |
| Driver.AdvanceOnly | pong/pong_game.c:353 | The resolver on the one-ball list is one `BallStep` of the ball against the bottom and top paddles. |
| Driver.CadenceTick | pong/pong_game.c:352-400 | On the 20th tick, the tick has these effects:<br>• the resolver step runs;<br>• the switch moves happen, with a move overriding the goal flag;<br>• a redraw is requested and the counter resets;<br>• the game invariant is re-established. |
| Driver.WdtHandler | pong/pong_game.c:299-402 | When a score is 5, the tick increments the counter, turns the background white and reports the winner. Nothing else changes, and `Valid` is not promised, because the counter may reach 20. Otherwise:<br>• the counter advances by `NextCount`;<br>• the resolver and paddle moves run exactly when it reaches 20;<br>• the invariant is kept. |

## Left out

- LCD output is not modelled. This covers `lcd_setArea`, the text drawn by `drawString5x7` and `drawChar5x7`, and `layerDraw`. The renderer's output is the sequence of colours written, in order.
- `mlAdvance` redraws the "Player1:"/"Player2:" labels and score digits. This is text output and is not modelled.
- The handler's green-LED writes at its start and end are not modelled. They have no effect on the game.
- Interrupt masking (`and_sr`/`or_sr`) and any concurrency between the handler and `main`'s redraw loop are not modelled.
- `main` is not modelled: clock, LCD, switch and buzzer setup, the low-power wait, and the three `movLayerDraw` calls. The buzzer driver is modelled only as the last period handed to it.
- The shape library's bounds and containment functions are not in the source here. Shapes are therefore abstract parameters. The field fence is a parameter, because it comes from `layerGetBounds` on the field outline.
- The screen size (128×160) comes from the LCD library, which is not part of this model.
- The intro's busy loop (`while (++wait < 185)`), its static `wait` counter and the redraw at `wait == 200` are not modelled, apart from the countdown text in `CountdownLabel`.
- The game-over branch's loop is not modelled. It calls `main()` at once when the switch word read at the start of the tick is non-zero, and otherwise spins forever; the word is never read again. The branch becomes the `GameOver` outcome. That tick also increments the counter, which may then reach 20, outside `Valid`. Nothing the model does follows it. No game-over tune is played.
- The first switch read of the handler, used only by that restart, is not modelled.
- The block-scoped `int redrawScreen = 1;` locals in `mlAdvance` are dead stores and are not modelled.
- Colours are an enumeration; their 16-bit display values are not modelled.
- Vectors are values with an x and a y field, not two-element arrays indexed by axis. `Vec2.Get` and `Vec2.With` give axis access.
- C integer widths (`short goal`, `char` scores, the `short` counter) are unbounded integers here. `Valid` keeps the goal flag, the scores, the digits and the counter in small ranges, so these cannot wrap around in the modelled states.
- Positions and velocities are unbounded integers, not the target's 16-bit vector components. Two things are therefore not modelled: the x velocity gains 1 on every paddle hit and is reset only by a goal, so it can grow past 16 bits; and positions can overflow.
- `Resolver.MlAdvance` and `Render.MovLayerDraw` take any list of distinct layers, but the program passes one-element lists: the ball alone, and each layer alone.
