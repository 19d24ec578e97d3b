# Pong paddle rules in Dafny

This project models the logic of a two-player Pong game ("PING") written in
Python over pygame. That logic amounts to integer rectangle geometry and
the paddle-movement rules:

- **Actors** (`actors.dfy`, module `Actors`): an actor is an immutable record
  of integer position and size. A human player (a paddle) also has a speed
  and a score. A new paddle is 15 x 80 with speed 10 and score 0. A new ball is 18 x 18.
  `Move` shifts a paddle's y by its speed: "up" subtracts, "down" adds, and
  any other direction does nothing.
- **Game rules** (`game.dfy`, module `GameRules`):
  - the point lookup: a linear scan for the first actor whose box holds a point, inclusive on both edges;
  - the win test: some score equals the goal exactly;
  - the set-up of paddles and ball;
  - the per-frame paddle step, guarded by `y - speed >= 0` for up and by `y + height + speed <= 720` for down.
  The pressed keys of a frame are a pure input (`Frame`), and the main loop is a fold over a sequence of frames (`Run`).
- **Python `range`** (`pyrange.dfy`, module `PyRange`): the point lookup tests
  `x in range(a, a + w + 1)`. The model writes that membership out over the
  sequence `range` denotes, and proves it means `a <= x <= a + w`.
- **Buttons** (`button.dfy`, module `Buttons`): the inclusive
  point-in-rectangle hit test of a menu button.
- `options.dfy` holds the `Option` type. It stands for Python's `Optional`/`None`, and in `GetSpeed` for a read that fails.

Facts about the code that shape the model:

- `Contains` is inclusive on both edges, because the lookup tests
  `x in range(a, a + w + 1)` (game.py:66-67).
- `Ball.move` and `AIPlayer.move` are empty stubs (actors.py:153-157, 186-190),
  so the ball does not move in a frame.
- The down guard uses the literal 720, while the window is 960 x 500 (main.py:7).
  The model keeps 720 (`StageBottom`). `PaddleCanLeaveWindow` shows a paddle reaching y = 640, below the window.

## Model

| member | source | states |
|---|---|---|
| PyRange.Range | game.py:66-67 | `range(lo, hi)` denotes lo, lo+1, ..., hi-1: its length is max(0, hi-lo), its i-th element is lo+i, and v is in it exactly when lo <= v < hi |
| GameRules.Contains | game.py:62-67 | the range-membership test of the lookup holds exactly when a.x <= x <= a.x+width and a.y <= y <= a.y+height, with both edges included |
| GameRules.ActorAt | game.py:61-69 | the result is None exactly when no actor in the list contains the point; otherwise it is an actor that contains the point at some index, and no earlier actor contains it (first match in list order) |
| GameRules.GetActor | game.py:56-69 | the loop scan returns the same first-match answer as ActorAt; a returned actor is in the list and contains the point; None means no actor in the list contains the point; the list is a value and is left unchanged |
| GameRules.GameWon | game.py:71-78 | won exactly when some player's score equals the goal; scores that are both different from the goal, including scores above it, are not a win |
| GameRules.OnInit | game.py:80-93 | set-up yields the actor list [paddle at (10,0), paddle at (935,0), ball at the floor-halved screen centre], running, with the given goal; both paddles start on the stage (0 <= y <= 720 - height); the game is won at set-up exactly when the goal is 0 |
| GameRules.StepPaddle | game.py:105-121 | only y changes; up alone moves up by exactly speed when y - speed >= 0 and otherwise changes nothing; down alone moves down by exactly speed when y + height + speed <= 720 and otherwise changes nothing; no key changes nothing; with speed >= 0 the step keeps 0 <= y <= 720 - height; both keys held from y >= speed cancel out, because the down guard sees the y after the up move; both keys held from y < speed skip the up move and then take the guarded down move |
| GameRules.OnMove | game.py:95-124 | a quit event stops the game while that frame's keys are still applied; W/S step the first paddle and the arrow keys step the second; the ball, goal and screen are unchanged; the win status is unchanged; the on-stage invariant is preserved |
| GameRules.Run | game.py:126-137 | the frame loop preserves the on-stage invariant; it leaves the ball, goal, screen size and win status unchanged, and each paddle's x, size, speed and score unchanged, so only the paddles' y can change; a stopped game takes no frame; the game ends running exactly when it started running and no frame carries a quit event |
| GameRules.RunOneFrame | game.py:134-137 | one frame of the loop is exactly one `OnMove` while the game is running, and no change once it has stopped |
| GameRules.RunConcat | game.py:134-137 | the loop takes its frames in order: running a + b is running a, then running b from where a left the game |
| GameRules.PaddlesStayOnStage | game.py:90-121 | from set-up, no sequence of frames moves either paddle off the stage |
| GameRules.HoldingUpSettles | game.py:106-108 | holding up for at least y/10 frames leaves a speed-10 paddle at y mod 10, with only y changed |
| GameRules.HoldingDownSettles | game.py:109-112 | holding down long enough leaves a speed-10 paddle at the largest y (lowest on screen) reachable in whole steps of 10 with y + height <= 720 |
| GameRules.PaddleCanLeaveWindow | game.py:109-112 | on a 960 x 500 screen, 64 frames of S take the first paddle to y = 640, which is past the window's height |
| GameRules.BothKeysIsUpThenDown | game.py:105-112 | with both keys held, the step equals the up-only step followed by the down-only step, so the down guard sees the y after the up move |
| Actors.GetSpeed | actors.py:72-76 | a speed exists exactly for human players and is their speed field; for the ball the result is None, which stands for the AttributeError that `get_speed` raises because the ball's `_speed` is never assigned |
| Actors.NewHumanPlayer | actors.py:95-102 | a new human player is at the given (x, y) with dimensions 15 x 80, speed 10 and score 0 |
| Actors.NewBall | actors.py:171-176 | a new ball is at the given (x, y) with dimensions 18 x 18 and no speed |
| Actors.Move | actors.py:111-118 | "up" gives y - speed; "down" gives y + speed; any other direction leaves the player unchanged; x, dimensions, speed and score never change |
| Actors.MoveUpDownInverse | actors.py:111-118 | a move down undoes a move up, and a move up undoes a move down |
| Buttons.CheckMousePos | button.py:32-38 | a hit exactly when mx is in range(x, x+width+1) and my is in range(y, y+height+1); a point left or right of the button, or above or below it, is never a hit, whatever the other coordinate is; the button is a value and is left unchanged |
| Buttons.CornersAreHits | button.py:37-38 | for a button of non-negative size, all four corners are hits |
| Buttons.HitTestMatchesActorBox | button.py:37-38 | the button's chained-comparison test agrees with the game's range-based actor box test on the same rectangle |

## Left out

- `AIPlayer`: its movement is an empty stub, and `get_score` reads a score that is never assigned.
- `Ball.move`: an empty stub. `OnMove` leaves the ball where it was.
- `Actor.move` of the abstract base class only raises "not implemented", so it has no counterpart.
- Colours and all `draw` methods, and the dashed centre line drawn in the main loop: these are rendering over pygame.
- Event polling and the 50 ms frame delay in `on_move`. The frame's keys and its quit flag are a parameter (`Frame`).
- The state before set-up, where the players and the ball are still None. `Game` models a game after `on_init`.
- `on_init`'s actor list is derived from the game's fields, `ActorList`. Calling `on_init` twice would append the actors a second time; the loop calls it once.
- `Run` takes a finite sequence of frames. Frames after the last one given, and the `pygame.quit()` at the end, are not modelled.
- `main_menu`: an empty stub.
- `Button.get_rect`: a wrapper over a pygame type.
- The button's colour and click callback.
- The high-score files (`high_score.py`, `highScore.py`): file I/O.
- `menu.py`: user-interface code that does not parse.
- `main.py`: it holds the screen size and goal constants and starts the game by building a `Game` and running its loop (main.py:7-12). `OnInit` and `Run` model what it starts, and `PaddleCanLeaveWindow` uses its constants. The module-level entry point itself has no counterpart.
- `GetCoordinates`, `GetDimensions` and `GetScore` (actors.py:60-70, 104-109): plain accessors. They carry no contract of their own and are used in the contracts of `NewHumanPlayer`, `NewBall`, `Move` and `GameWon`.
- OnInit: the ball is centred on the requested screen size. The code reads the size back from the display surface (game.py:88), and the model takes that surface to have the size requested from `set_mode` (game.py:45). A request such as (0, 0), which pygame answers with the desktop resolution, is not modelled.
