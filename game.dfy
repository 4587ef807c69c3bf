/**
 * The game status of a TicTacToe object as a value (board, player to move,
 * game-over flag, winner) and the one transition on it, a move. Sequences of
 * moves that pass the turn gate are traces; the lemmas here are about
 * traces: strict alternation of marks, cells written once, at most nine
 * accepted moves, and no move after the game is over.
 */
module Game {
  import opened Board

  /** The two marks; the first player is 'X'. */
  const First: char := 'X'
  const Second: char := 'O'
  /** `winner` before the game is decided. */
  const NoWinner: char := ' '
  /** `winner` when the game ends with a full board and no line. */
  const Draw: char := 'D'

  datatype State = State(grid: Grid, current: char, over: bool, winner: char)

  /** A freshly constructed game: an empty board, 'X' to move, not over, no winner. */
  function Init(): State
  {
    State(EmptyGrid(), First, false, NoWinner)
  }

  /** The turn flip: 'X' becomes 'O' and every other mark becomes 'X'. */
  function Other(p: char): char
  {
    if p == First then Second else First
  }

  /** The condition a player waits for before its move is applied. */
  predicate Gate(s: State, player: char)
  {
    s.current == player && !s.over
  }

  /**
   * One move by `player` at (row, col), once the gate has let it through:
   * an occupied cell rejects the move and changes nothing; otherwise the cell
   * is marked, a line for `player` wins, else a full board is a draw, and the
   * turn flips in every case, including the move that ends the game.
   */
  function Move(s: State, player: char, row: int, col: int): (r: (State, bool))
    requires IsGrid(s.grid) && Gate(s, player) && InRange(row, col)
    ensures IsGrid(r.0.grid)
  {
    if s.grid[row][col] != Empty then (s, false)
    else
      var g := Place(s.grid, row, col, player);
      var next := Other(s.current);
      if Wins(g, player) then (State(g, next, true, player), true)
      else if Full(g) then (State(g, next, true, Draw), true)
      else (State(g, next, s.over, s.winner), true)
  }

  /** The outcome of a move on an empty cell, field by field. */
  lemma MoveOnEmpty(s: State, player: char, row: int, col: int)
    requires IsGrid(s.grid) && Gate(s, player) && InRange(row, col) && s.grid[row][col] == Empty
    ensures var g := Place(s.grid, row, col, player);
      Move(s, player, row, col) ==
        (State(g, Other(s.current), Wins(g, player) || Full(g),
               if Wins(g, player) then player else if Full(g) then Draw else s.winner), true)
  {
  }

  /** Every cell is empty or holds one of the two marks. */
  ghost predicate OnlyMarks(g: Grid)
    requires IsGrid(g)
  {
    forall i, j :: 0 <= i < 3 && 0 <= j < 3 ==> g[i][j] == Empty || g[i][j] == First || g[i][j] == Second
  }

  /**
   * What a finished game records: a winner holding a line its opponent does
   * not hold, or a draw on a full board where neither holds one.
   */
  ghost predicate Decided(g: Grid, winner: char)
    requires IsGrid(g)
  {
    || (winner == First && Wins(g, First) && !Wins(g, Second))
    || (winner == Second && Wins(g, Second) && !Wins(g, First))
    || (winner == Draw && Full(g) && !Wins(g, First) && !Wins(g, Second))
  }

  /**
   * The invariant of every state the game can reach: the player to move is
   * 'X' or 'O'; 'X' has as many marks as 'O' when it is 'X's turn and one more
   * otherwise; a game still in progress has no winner, no line and an empty
   * cell; a finished game has recorded its outcome.
   */
  ghost predicate Consistent(s: State)
  {
    && IsGrid(s.grid)
    && OnlyMarks(s.grid)
    && (s.current == First || s.current == Second)
    && Count(s.grid, First) == Count(s.grid, Second) + (if s.current == First then 0 else 1)
    && (!s.over ==> s.winner == NoWinner && !Wins(s.grid, First) && !Wins(s.grid, Second) && !Full(s.grid))
    && (s.over ==> Decided(s.grid, s.winner))
  }

  lemma InitConsistent()
    ensures Consistent(Init())
  {
    EmptyGridFacts(First);
    EmptyGridFacts(Second);
  }

  /** A move through the gate keeps the game consistent. */
  lemma {:induction false} MoveConsistent(s: State, player: char, row: int, col: int)
    requires Consistent(s) && Gate(s, player) && InRange(row, col)
    ensures Consistent(Move(s, player, row, col).0)
  {
    if s.grid[row][col] == Empty {
      var g := Place(s.grid, row, col, player);
      var r := Move(s, player, row, col).0;
      assert r.grid == g && r.current == Other(player);
      PlaceCount(s.grid, row, col, player, Other(player));
      PlaceKeepsOtherWins(s.grid, row, col, player, Other(player));
      assert OnlyMarks(g);
      assert !Wins(g, Other(player));
      if Wins(g, player) {
        assert Decided(g, player);
      } else if Full(g) {
        assert Decided(g, Draw);
      }
    }
  }

  /** One attempted `make_move(player, row, col)`. */
  datatype Attempt = Attempt(player: char, row: int, col: int)

  /** Every attempt of `t`, applied in order from `s`, passes the gate and names a cell on the board. */
  ghost predicate Admissible(s: State, t: seq<Attempt>)
    decreases |t|
  {
    && IsGrid(s.grid)
    && (|t| == 0 ||
        (Gate(s, t[0].player) && InRange(t[0].row, t[0].col) &&
         Admissible(Move(s, t[0].player, t[0].row, t[0].col).0, t[1..])))
  }

  /** The state after the attempts of `t`, and the marks of the accepted ones in order. */
  ghost function Run(s: State, t: seq<Attempt>): (r: (State, seq<char>))
    requires Admissible(s, t)
    ensures IsGrid(r.0.grid) && |r.1| <= |t|
    decreases |t|
  {
    if |t| == 0 then (s, [])
    else
      var (next, ok) := Move(s, t[0].player, t[0].row, t[0].col);
      var (last, marks) := Run(next, t[1..]);
      (last, if ok then [t[0].player] + marks else marks)
  }

  /** Running a non-empty trace is one move followed by the run of the rest. */
  lemma RunStep(s: State, t: seq<Attempt>, next: State, ok: bool, last: State, marks: seq<char>)
    requires |t| > 0 && IsGrid(s.grid) && Gate(s, t[0].player) && InRange(t[0].row, t[0].col)
    requires Move(s, t[0].player, t[0].row, t[0].col) == (next, ok)
    requires Admissible(next, t[1..]) && Run(next, t[1..]) == (last, marks)
    ensures Admissible(s, t)
    ensures Run(s, t) == (last, if ok then [t[0].player] + marks else marks)
  {
  }

  lemma {:induction false} RunConsistent(s: State, t: seq<Attempt>)
    requires Admissible(s, t) && Consistent(s)
    ensures Consistent(Run(s, t).0)
    decreases |t|
  {
    if |t| > 0 {
      MoveConsistent(s, t[0].player, t[0].row, t[0].col);
      RunConsistent(Move(s, t[0].player, t[0].row, t[0].col).0, t[1..]);
    }
  }

  /**
   * Accepted moves alternate strictly, starting with the player to move in
   * `s`, and afterwards the turn belongs to whoever is next in that alternation.
   */
  lemma {:induction false} Alternation(s: State, t: seq<Attempt>)
    requires Admissible(s, t) && (s.current == First || s.current == Second)
    ensures forall i :: 0 <= i < |Run(s, t).1| ==>
              Run(s, t).1[i] == if i % 2 == 0 then s.current else Other(s.current)
    ensures Run(s, t).0.current == if |Run(s, t).1| % 2 == 0 then s.current else Other(s.current)
    decreases |t|
  {
    if |t| > 0 {
      var (next, ok) := Move(s, t[0].player, t[0].row, t[0].col);
      Alternation(next, t[1..]);
      var marks := Run(next, t[1..]).1;
      if ok {
        assert next.current == Other(s.current) && Other(Other(s.current)) == s.current;
        assert Run(s, t).1 == [s.current] + marks;
      } else {
        assert next == s;
      }
    }
  }

  /** From a new game, accepted moves go X, O, X, O, ...: no player moves twice in a row. */
  lemma StrictAlternation(t: seq<Attempt>)
    requires Admissible(Init(), t)
    ensures forall i :: 0 <= i < |Run(Init(), t).1| ==>
              Run(Init(), t).1[i] == if i % 2 == 0 then First else Second
    ensures forall i :: 0 < i < |Run(Init(), t).1| ==> Run(Init(), t).1[i] != Run(Init(), t).1[i - 1]
  {
    Alternation(Init(), t);
  }

  /** A marked cell keeps its mark through every later move. */
  lemma {:induction false} WriteOnce(s: State, t: seq<Attempt>, row: int, col: int)
    requires Admissible(s, t) && InRange(row, col) && s.grid[row][col] != Empty
    ensures Run(s, t).0.grid[row][col] == s.grid[row][col]
    decreases |t|
  {
    if |t| > 0 {
      var next := Move(s, t[0].player, t[0].row, t[0].col).0;
      assert next.grid[row][col] == s.grid[row][col];
      WriteOnce(next, t[1..], row, col);
    }
  }

  /** Each accepted move fills an empty cell, so there are at most as many as there were empty cells. */
  lemma {:induction false} AcceptedBound(s: State, t: seq<Attempt>)
    requires Admissible(s, t) && Consistent(s)
    ensures |Run(s, t).1| <= Count(s.grid, Empty)
    decreases |t|
  {
    if |t| > 0 {
      var (next, ok) := Move(s, t[0].player, t[0].row, t[0].col);
      MoveConsistent(s, t[0].player, t[0].row, t[0].col);
      AcceptedBound(next, t[1..]);
      if ok {
        PlaceCount(s.grid, t[0].row, t[0].col, t[0].player, Empty);
      }
    }
  }

  /** A game accepts at most nine moves. */
  lemma AtMostNineMoves(t: seq<Attempt>)
    requires Admissible(Init(), t)
    ensures |Run(Init(), t).1| <= 9
  {
    InitConsistent();
    AcceptedBound(Init(), t);
    EmptyGridFacts(First);
  }

  /** Once the game is over no player passes the gate, so board and winner never change again. */
  lemma GameOverIsFinal(s: State, t: seq<Attempt>)
    requires Admissible(s, t) && s.over
    ensures t == [] && Run(s, t).0 == s
  {
  }
}
