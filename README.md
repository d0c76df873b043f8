# Pong prototype (curses) in Dafny

This project models `main.py`, an early curses prototype of Pong. Its state is
small. There is integer geometry where a position may never go negative. There
is a five-cell paddle with a score that moves up and down without limits. There
is a ball with a position and a velocity, which starts at rest. A scoreboard
draws one digit from a ten-entry table. The game object lays all of these out
from the terminal size and changes state on one key code at a time.

Modules, one per component of the file:

- `Geometry` (`geometry.dfy`): `Vector` and `Position` as values. `Add` is
  `Position.__add__`: it returns a `Result` whose errors stand for ValueError
  (negative coordinate) and TypeError (operand not a Vector).
- `Entities` (`entities.dfy`): the classes `Character` and `Ball`. `Player`
  adds nothing to `Character`, so it is `Character` here. `OutOfBoundsError` is
  the `OutOfBounds` outcome of `Ball.Move`.
- `Scoreboard` (`score.dfy`): the `Nums` digit table and `Score.draw` as a
  function that returns the list of `addstr` writes it makes.
- `Pong` (`game.dfy`): the layout `init` computes, the key handling of
  `procinput` as the function `AfterKey` over a `Control` value (running flag
  and player position), the main loop as `AfterKeys` over a finite key
  sequence, and the class `Game` whose methods are proved against those
  functions.

There are no walls, goals, opponent, collisions, bounces or score
increments, because `main.py` has none. The paddle is not clamped to the
screen. A new ball's velocity is (0, 0), not (-1, 1). `Ball.move` is never
called by the game.

Python's `//` by 2 is floor division. Dafny's `/` by a positive divisor is
the same, so the layout holds for every integer screen size. Python integers
are unbounded, like Dafny's `int`. The curses key codes are KEY_DOWN = 258 and
KEY_UP = 259; 'q' is 113 and 'Q' is 81.

## Model

| member | source | states |
|---|---|---|
| `Geometry.Add` | main.py:11-22 | Adding a non-Vector fails with the TypeError case. Adding a Vector succeeds exactly when both summed coordinates are non-negative; it then yields the component-wise sum, which is never negative. Otherwise it fails with the ValueError case. |
| `Geometry.AddZero` | main.py:12-18 | Adding the zero vector to a non-negative position succeeds and returns the same position. |
| `Geometry.AddUndo` | main.py:12-18 | From a non-negative position, a successful `p + v` is undone by adding `-v`, and that addition never fails. |
| `Geometry.AddCompose` | main.py:12-18 | Two successful additions of `u` then `v` give the same result as one addition of `u + v`. |
| `Entities.PaddleCells` | main.py:60-62 | A paddle covers `LENGTH` = 5 cells in its column, row `top.y + i` for cell `i`. |
| `Entities.PaddleCellsSpan` | main.py:51-62 | A cell belongs to the paddle if and only if it is in the paddle's column and between its top row and top row + 4. |
| `Entities.PaddleCellsShift` | main.py:57-62 | Moving the paddle's top by `dy` rows moves every one of its cells by `dy` rows and keeps their column. |
| `Entities.Character.constructor` | main.py:53-55 | A new paddle sits at the given (y, x) with score 0. |
| `Entities.Character.Move` | main.py:57-58 | `move(dy)` adds `dy` to the row only. The column and the score are unchanged, and nothing clamps the row. |
| `Entities.Ball.constructor` | main.py:75-77 | A new ball sits at the given (y, x) with velocity (0, 0). |
| `Entities.Ball.Move` | main.py:82-86 | The velocity never changes. The move succeeds exactly when `pos + vel` has no negative coordinate, and then `pos` becomes that sum. Otherwise OutOfBounds is reported and `pos` keeps its old value, because the addition fails before anything is assigned. |
| `Entities.MoveFreshBall` | main.py:75-86 | Moving a freshly built ball at a non-negative position succeeds and leaves it where it was. |
| `Scoreboard.NumsShape` | main.py:26-37 | The digit table has 10 entries, each of 5 rows, each row 3 characters wide. |
| `Scoreboard.NumsDistinct` | main.py:26-37 | No two digits share a drawing. |
| `Scoreboard.GlyphWrites` | main.py:46-47 | Drawing a glyph makes one write per row, row `i` of the glyph at row `pos.y + i` in column `pos.x`, top row first. |
| `Scoreboard.DrawAsWritten` | main.py:42-47 | As written, drawing succeeds exactly for scores -10 to 9, always with 5 writes, and every failure is IndexError: the range error is never raised. Scores 0 to 9 draw as the corrected `Draw` does; a negative score draws as `Draw` of that score + 10. |
| `Scoreboard.GuardNeverFires` | main.py:43-44 | The range guard as written is false for every score. |
| `Scoreboard.DrawAsWrittenMisreads` | main.py:42-47 | As written, score -1 draws the same thing as 9, and score 10 fails with IndexError rather than the range error. |
| `Scoreboard.Draw` | main.py:42-47 | Succeeds if and only if 0 <= score <= 9, and fails with the range error otherwise. On success it makes exactly 5 writes: row `pos.y + i`, column `pos.x`, 3 characters, the digit's row `i`. |
| `Scoreboard.DrawDistinguishes` | main.py:26-47 | Two scores whose drawings succeed and are identical are equal, so the writes determine the digit. |
| `Pong.LayoutFor` | main.py:100-110 | The centre is the floor half of (rows, cols). The paddle's middle cell is on the centre row in column 3. The ball starts on the centre row in column 5. Both scoreboards are on row 3: the left one at the floor half of the centre column, the right one the same distance past the centre column. |
| `Pong.PaddleCentred` | main.py:102-105 | The initial paddle spans centre row - 2 to centre row + 2, and its middle cell is level with the ball. |
| `Pong.InitialBallStaysPut` | main.py:102-105 | For any non-negative screen height, moving the ball by its initial zero velocity succeeds and leaves it in place. |
| `Pong.AfterKey` | main.py:141-148 | 'q'/'Q' clears the running flag and leaves the player in place. The up key moves the player up one row and the down key moves it down one row; neither touches the flag. Any other code changes nothing. |
| `Pong.UpDownCancel` | main.py:145-148 | Up then down, and down then up, restore the state exactly. |
| `Pong.AfterKeys` | main.py:135-139 | The loop over a key sequence: once stopped it stays stopped, the player's column never changes, and its row moves by at most one per key. |
| `Pong.StillRunning` | main.py:135-143 | After a sequence of keys the loop is still running if and only if it was running before and no key was a quit key. Nothing sets the flag back to true. |
| `Pong.Displacement` | main.py:135-148 | With no quit key among them, a key sequence moves the player down by the number of down keys minus the number of up keys, and keeps its column. |
| `Pong.QuitEndsLoop` | main.py:135-143 | The first quit key stops the loop. The player is left where the earlier keys put it, and the keys after the quit key have no effect. |
| `Pong.StoppedStaysStopped` | main.py:135-139 | Once the flag is clear, further keys change nothing. |
| `Pong.Game.constructor` | main.py:94-95 | A new game is running and has no entities yet. |
| `Pong.Game.Init` | main.py:97-110 | Records rows and cols and sets centre, player, ball and scoreboards to the layout for that size. The player's score is 0, the ball is at rest, and the running flag is unchanged. |
| `Pong.Game.ProcInput` | main.py:141-148 | The new (running, player position) is `AfterKey` of the old one. The score, ball, layout and scoreboards are unchanged. |
| `Pong.Game.Run` | main.py:130-139 | The main loop reads keys while running. The final (running, player position) is `AfterKeys` of the initial state and the keys. If it is still running, every key was read and none was a quit key. If it was already stopped, none was read. If it stopped, the last key read was the first quit key. Score, ball and layout are unchanged. |
| `Pong.BoardsWrites` | main.py:119-120 | Drawing one score on two boards succeeds exactly when both drawings do, for scores -10 to 9, and otherwise fails with IndexError. On success it is the left board's writes followed by the right board's. For a digit 0 to 9, each board shows that digit's rows at its own position. |
| `Pong.Game.ScoreboardWrites` | main.py:119-120 | Both boards draw the player's score, as the program draws it. This succeeds if and only if the score is -10 to 9, and then makes 10 writes whose first five texts equal the last five. For a score 0 to 9 the writes are that digit's rows at each board's position. |

## Findings

| source | as written | input that shows it | evidently intended | confidence | as-written member | corrected member |
|---|---|---|---|---|---|---|
| main.py:43-44 | The range guard is the chained comparison "9 below score and score below 0", which no score satisfies. The table is then indexed with Python's negative indexing. | score = -1 draws digit 9; score = 10 raises IndexError, not the range error | raise the range error unless 0 <= score <= 9 | high; not executed | `Scoreboard.DrawAsWritten` (shown by `Scoreboard.DrawAsWrittenMisreads`) | `Scoreboard.Draw` |

## Left out

- Curses I/O is not modelled: hiding the cursor, measuring the screen, `addstr`, `vline`, `clear`, `refresh`, `getch` and the `wrapper` entry point. The screen size is an input of `Game.Init`, and key codes are inputs of `Game.ProcInput` and `Game.Run`.
- `Game.draw` is modelled only for its scoreboard part (`ScoreboardWrites`). The paddle, ball and divider drawing is screen output; the cells the paddle covers are given by `PaddleCells`.
- `Ball.draw` and the ball glyph are not modelled; they are screen output only.
- Pong.Game.Run: does not model the `draw()` call at the start of each round, so it never stops on a drawing error. In the program, `draw()` writes the paddle cells with `addstr`, and curses raises an error for a cell outside the window. The paddle is not clamped, so enough up or down keys end the program that way without a quit key. An interrupt from the keyboard also ends it.
- Pong.Game.Run: `getch` waits for a key, so the real loop never runs out of keys. The model takes a finite key sequence, and its loop also ends when that sequence runs out.
- `Game.main` calls `init` before the loop. The model leaves that call to its caller: `ProcInput` and `Run` require that `Init` has run.
- Vectors are values, not shared objects. In the source each paddle, ball and scoreboard builds its own `Vector`, so changing `pos.y` in place is the same as replacing the value.
- The glyph characters are modelled as U+2588 and spaces, only for their shape.
