/**
 * The TicTacToe object: a 3x3 board updated in place, the player to move,
 * the game-over flag and the winner. The mutex and the condition variable are
 * not modelled; the wait predicate of `make_move` becomes its precondition.
 */
module Monitor {
  import opened Board
  import opened Game

  class TicTacToe {
    var board: array2<char>
    var currentPlayer: char
    var gameOver: bool
    var winner: char

    /** The board as a value, kept equal to the array by every method. */
    ghost var grid: Grid

    /** The array is 3x3 and holds exactly the cells of `grid`. */
    ghost predicate Mirrors()
      reads this`board, this`grid, board
    {
      && board.Length0 == 3 && board.Length1 == 3
      && IsGrid(grid)
      && forall i, j :: 0 <= i < 3 && 0 <= j < 3 ==> board[i, j] == grid[i][j]
    }

    /** The whole object as a value of the game's state machine. */
    ghost function Model(): Game.State
      reads this
    {
      Game.State(grid, currentPlayer, gameOver, winner)
    }

    ghost predicate Valid()
      reads this, board
    {
      Mirrors() && Consistent(Model())
    }

    /** A new game: nine empty cells, 'X' to move, not over, no winner. */
    constructor ()
      ensures Valid() && fresh(board)
      ensures Model() == Init()
    {
      var b := new char[3, 3];
      var i := 0;
      while i < 3
        invariant 0 <= i <= 3
        invariant forall r, c :: 0 <= r < i && 0 <= c < 3 ==> b[r, c] == Empty
      {
        var j := 0;
        while j < 3
          invariant 0 <= j <= 3
          invariant forall r, c :: 0 <= r < i && 0 <= c < 3 ==> b[r, c] == Empty
          invariant forall c :: 0 <= c < j ==> b[i, c] == Empty
        {
          b[i, j] := Empty;
          j := j + 1;
        }
        i := i + 1;
      }
      board := b;
      grid := EmptyGrid();
      currentPlayer := First;
      gameOver := false;
      winner := NoWinner;
      new;
      InitConsistent();
    }

    /**
     * Applies `player`'s move at (row, col) once the turn gate lets it through.
     * An occupied cell rejects the move and nothing changes. Otherwise exactly
     * that cell is marked, a line for `player` makes it the winner, else a
     * full board is a draw, else the game goes on; the turn flips in all three
     * cases.
     */
    method MakeMove(player: char, row: int, col: int) returns (ok: bool)
      requires Valid()
      requires currentPlayer == player && !gameOver
      requires InRange(row, col)
      modifies this, board
      ensures Valid() && board == old(board)
      ensures ok <==> old(board[row, col]) == Empty
      ensures !ok ==> Model() == old(Model())
      ensures ok ==> board[row, col] == player
      ensures forall i, j :: 0 <= i < 3 && 0 <= j < 3 && (i != row || j != col) ==> board[i, j] == old(board[i, j])
      ensures ok ==> currentPlayer == Other(old(currentPlayer))
      ensures ok && Wins(grid, player) ==> gameOver && winner == player
      ensures ok && !Wins(grid, player) && Full(grid) ==> gameOver && winner == Draw
      ensures ok && !Wins(grid, player) && !Full(grid) ==> !gameOver && winner == old(winner)
      ensures (Model(), ok) == Move(old(Model()), player, row, col)
    {
      ghost var before := Model();
      if board[row, col] == Empty {
        board[row, col] := player;
        assert forall i, j :: 0 <= i < 3 && 0 <= j < 3 && (i != row || j != col) ==> board[i, j] == old(board[i, j]);
        grid := Place(grid, row, col, player);
        var won := CheckWin(player);
        if won {
          winner := player;
          gameOver := true;
        } else {
          var full := CheckDraw();
          if full {
            winner := Draw;
            gameOver := true;
          }
        }
        currentPlayer := if currentPlayer == First then Second else First;
        assert Model() == Move(before, player, row, col).0 by {
          MoveOnEmpty(before, player, row, col);
        }
        assert Consistent(Model()) by {
          MoveConsistent(before, player, row, col);
        }
        return true;
      }
      return false;
    }

    /**
     * Whether `player` holds a whole row, column or diagonal: the rows and
     * columns are scanned together, then the two diagonals.
     */
    method CheckWin(player: char) returns (won: bool)
      requires Mirrors()
      ensures won <==> Wins(grid, player)
    {
      ghost var g := grid;
      var i := 0;
      while i < 3
        invariant 0 <= i <= 3
        invariant forall k :: 0 <= k < i ==> !Completes(g, WinningLine(k), player)
        invariant forall k :: 3 <= k < 3 + i ==> !Completes(g, WinningLine(k), player)
      {
        if (board[i, 0] == player && board[i, 1] == player && board[i, 2] == player) ||
           (board[0, i] == player && board[1, i] == player && board[2, i] == player)
        {
          assert Completes(g, WinningLine(i), player) || Completes(g, WinningLine(i + 3), player);
          return true;
        }
        i := i + 1;
      }
      won := (board[0, 0] == player && board[1, 1] == player && board[2, 2] == player) ||
             (board[0, 2] == player && board[1, 1] == player && board[2, 0] == player);
      if won {
        assert Completes(g, WinningLine(6), player) || Completes(g, WinningLine(7), player);
      }
    }

    /** Whether no cell is empty: the first empty cell met in row-major order answers no. */
    method CheckDraw() returns (full: bool)
      requires Mirrors()
      ensures full <==> Full(grid)
    {
      var i := 0;
      while i < 3
        invariant 0 <= i <= 3
        invariant forall r, c :: 0 <= r < i && 0 <= c < 3 ==> board[r, c] != Empty
      {
        var j := 0;
        while j < 3
          invariant 0 <= j <= 3
          invariant forall c :: 0 <= c < j ==> board[i, c] != Empty
        {
          if board[i, j] == Empty {
            return false;
          }
          j := j + 1;
        }
        i := i + 1;
      }
      return true;
    }

    /** Whether the game has ended: some player holds a line or the board is full. */
    method IsGameOver() returns (over: bool)
      requires Valid()
      ensures over == gameOver
      ensures over <==> Wins(grid, First) || Wins(grid, Second) || Full(grid)
    {
      over := gameOver;
    }

    /**
     * The recorded result: ' ' while the game is in progress, otherwise the
     * mark holding a line (which the other mark does not hold), or 'D' for a
     * full board without a line.
     */
    method GetWinner() returns (w: char)
      requires Valid()
      ensures w == winner
      ensures w == NoWinner <==> !gameOver
      ensures w == First || w == Second ==> Wins(grid, w) && !Wins(grid, Other(w))
      ensures w == Draw <==> gameOver && !Wins(grid, First) && !Wins(grid, Second)
    {
      w := winner;
    }
  }
}
