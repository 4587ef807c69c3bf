# Tic-tac-toe turn monitor, modelled in Dafny

The program plays tic-tac-toe between two threads that share one `TicTacToe`
object. The object holds a 3x3 `char` board (`' '` for an empty cell, `'X'`
or `'O'` for a mark), the player to move (`current_player`, initially `'X'`),
a `game_over` flag and a `winner` (`' '` while the game runs, the winning mark,
or `'D'` for a draw). `make_move` waits under a mutex until it is the caller's
turn and the game is not over. It then rejects an occupied cell, or marks the
cell, checks for a win by the mover, then for a draw, and flips the turn.

This project models that object with the threading taken away:

- `board.dfy` (module `Board`): the board as a value (`Grid`). It defines the
  eight winning lines as data (`WinningLine`), a win (`Wins`), a full board
  (`Full`), placing one mark (`Place`) and mark counts (`Count`).
- `game.dfy` (module `Game`): the object's status as a value (`State`) and a
  move as a function (`Move`). The wait predicate is `Gate`. `Consistent` is
  the invariant of every reachable state. A sequence of attempted moves that
  pass the gate is a trace (`Admissible`), and `Run` gives the state at its end
  and the marks of the accepted moves. The lemmas cover alternation, cells
  written once, the nine-move bound and the end of the game.
- `monitor.dfy` (module `Monitor`): class `TicTacToe`. Its `board` is an
  `array2<char>` updated in place. `currentPlayer`, `gameOver` and `winner` are
  plain fields. A ghost field `grid` mirrors the array. `CheckWin` and
  `CheckDraw` keep the source's loops with early return and are proved equal
  to `Wins` and `Full`. `MakeMove` is proved to produce exactly the state that
  `Game.Move` gives, and to keep `Valid()`.
- `scenarios.dfy` (module `Scenarios`): two whole games played from a new game.
  In the first, 'X' takes the top row. In the second, nine moves fill the board
  without a line and the game is a draw. Each `...From<i>` lemma is a helper
  that plays the game from its i-th attempt to the end.

The turn gate `current_player == player && !game_over` becomes the
precondition of `MakeMove` and of each step of a trace (`Gate`). The source
never checks `row` and `col`, so `0 <= row < 3 && 0 <= col < 3` is a
precondition too (`InRange`).

Three behaviours of the code are kept as written:

- The turn flips on every accepted move, including the move that ends the
  game (src/main.cpp:48). It does not flip only while the game is still
  running.
- Only the mover's win is checked before the draw check
  (src/main.cpp:41-47). `Board.PlaceKeepsOtherWins` and `Game.Consistent` show
  why this is enough. The opponent cannot hold a line while the game is
  running, and a mark of the mover cannot give the opponent one.
- A call made after the game has ended does not return false. Its wait
  predicate can never hold again, so the call waits forever
  (src/main.cpp:36). The model states this as `Game.GameOverIsFinal`: no
  attempt passes the gate once `over` holds.

## Model

| member | source | states |
|---|---|---|
| Monitor.TicTacToe.constructor | src/main.cpp:18-21 | the board is nine `' '` cells, filled row by row; `currentPlayer == 'X'`, `gameOver` is false, `winner == ' '`; the object satisfies the game invariant |
| Monitor.TicTacToe.MakeMove | src/main.cpp:34-54 | under the turn gate and in-range indices: the move is accepted exactly when the cell was `' '`. A rejected move changes nothing. An accepted move sets exactly `board[row, col]` to `player` and leaves every other cell unchanged. A line for `player` sets `winner == player` and `gameOver`. Otherwise a full board sets `winner == 'D'` and `gameOver`. Otherwise the game goes on with `winner` unchanged. The turn flips in all three cases. The new state is `Game.Move` of the old one, and the invariant is kept |
| Monitor.TicTacToe.CheckWin | src/main.cpp:56-65 | the row/column scan with early return, then the two diagonals, answers true exactly when `player` holds one of the eight winning lines; nothing changes |
| Monitor.TicTacToe.CheckDraw | src/main.cpp:67-76 | the row-major scan that stops at the first `' '` answers true exactly when no cell is `' '`; nothing changes |
| Monitor.TicTacToe.IsGameOver | src/main.cpp:78-80 | returns `gameOver`, which holds exactly when some player holds a line or the board is full |
| Monitor.TicTacToe.GetWinner | src/main.cpp:82-84 | returns `winner`: `' '` exactly while the game runs; a mark only if that mark holds a line and the other does not; `'D'` exactly when the game is over and neither mark holds a line |
| Board.Place | src/main.cpp:38-39 | the target cell holds the new mark and every other cell is unchanged |
| Board.WinsEnumerated | src/main.cpp:56-65 | a win is the same as a full row 0, 1 or 2, a full column 0, 1 or 2, or a full diagonal: the eight lines a scan checks |
| Board.PlaceKeepsOtherWins | src/main.cpp:41-47 | placing a mark on an empty cell neither gives another mark a line nor takes one away, so checking only the mover's win is enough |
| Board.PlaceCount | src/main.cpp:38-39 | an accepted move adds one mark of the mover and removes one empty cell; the other mark's count is unchanged |
| Board.EmptyGridFacts | src/main.cpp:18-21 | the initial board has nine empty cells, no mark, no line for anyone and is not full |
| Game.InitConsistent | src/main.cpp:18-21 | a new game satisfies the invariant `Consistent` |
| Game.MoveConsistent | src/main.cpp:34-54 | a move through the gate keeps the invariant: the player to move is 'X' or 'O'; 'X' has as many marks as 'O' on 'X's turn and one more on 'O's; a running game has no winner, no line and an empty cell; a finished game records a win by exactly one mark or a draw on a full board |
| Game.RunConsistent | src/main.cpp:34-54 | every state reached by moves through the gate satisfies the invariant |
| Game.Alternation | src/main.cpp:36-48 | accepted moves alternate strictly between the player to move and the other mark, starting with the player to move; afterwards the turn belongs to the next mark in that alternation |
| Game.StrictAlternation | src/main.cpp:36-48 | from a new game, accepted moves are X, O, X, O, ...; no mark is accepted twice in a row |
| Game.WriteOnce | src/main.cpp:38-39 | a marked cell keeps its mark through every later move |
| Game.AcceptedBound | src/main.cpp:38-39 | the number of accepted moves is at most the number of empty cells at the start |
| Game.AtMostNineMoves | src/main.cpp:38-48 | a game accepts at most nine moves |
| Game.GameOverIsFinal | src/main.cpp:36 | once `over` holds no attempt passes the gate, so board and winner never change again |
| Scenarios.TopRowWin | src/main.cpp:34-65 | X at (0,0), O refused at (0,0), O at (1,0), X at (0,1), O at (1,1), X at (0,2): the game ends with `winner == 'X'`, top row "XXX", accepted marks "XOXOX" |
| Scenarios.FullBoardDraw | src/main.cpp:34-76 | nine alternating moves that fill the board without a line end the game with `winner == 'D'`, and the turn has flipped to 'O' |

## Left out

- The mutex, the condition variable, `turn_cv.wait`, `unlock` and `notify_all` (src/main.cpp:11-12, 35-36, 49-50) are not modelled. They are concurrency plumbing. The wait predicate is a precondition, not a blocking wait.
- A thread that enters `make_move` after the other thread has ended the game waits forever, because the wait predicate requires `!game_over`. This liveness gap lies in the threading layer and is not modelled. The model only shows that the gate stays closed (`Game.GameOverIsFinal`).
- `display_board` (src/main.cpp:23-32) is console output and is not modelled. Called from `make_move` (src/main.cpp:40), it locks the non-recursive `board_mutex` that `make_move` already holds. That is a threading defect the model cannot express.
- Class `Player` (src/main.cpp:88-121) is not modelled: its two strategies exist to race two threads on `is_game_over` and `make_move`, and the random one calls C `rand()`. A trace (`Game.Attempt` sequence) stands for any order of proposals that pass the gate.
- `main` (src/main.cpp:124-142), which creates and joins the threads and prints the result, is not modelled.
- Monitor.TicTacToe.MakeMove: an out-of-range `row` or `col` is a precondition, because the source indexes the board without a check and such a call is undefined behaviour there.
