/**
 * The 3x3 tic-tac-toe board as a value, and the queries on it: which cells
 * form a winning line, whether a player holds one, whether the board is full,
 * and what placing one mark does.
 */
module Board {

  /** The content of a cell nobody has marked yet. */
  const Empty: char := ' '

  /** A board, row by row: `g[row][col]`. */
  type Grid = seq<seq<char>>

  /** Three rows of three cells each. */
  predicate IsGrid(g: Grid)
  {
    |g| == 3 && forall i :: 0 <= i < 3 ==> |g[i]| == 3
  }

  predicate InRange(row: int, col: int)
  {
    0 <= row < 3 && 0 <= col < 3
  }

  /** The board of nine empty cells. */
  function EmptyGrid(): (g: Grid)
    ensures IsGrid(g)
  {
    [[Empty, Empty, Empty], [Empty, Empty, Empty], [Empty, Empty, Empty]]
  }

  datatype Pos = Pos(row: int, col: int)

  /** Three cells that win the game when one player holds all of them. */
  datatype Line = Line(first: Pos, second: Pos, third: Pos)

  /**
   * The eight winning lines, numbered 0..7: the rows 0, 1, 2, then the
   * columns 0, 1, 2, then the main diagonal and the anti-diagonal.
   */
  function WinningLine(k: int): Line
    requires 0 <= k < 8
  {
    if k < 3 then Line(Pos(k, 0), Pos(k, 1), Pos(k, 2))
    else if k < 6 then Line(Pos(0, k - 3), Pos(1, k - 3), Pos(2, k - 3))
    else if k == 6 then Line(Pos(0, 0), Pos(1, 1), Pos(2, 2))
    else Line(Pos(0, 2), Pos(1, 1), Pos(2, 0))
  }

  /** Cell `pos` lies on the board and holds `p`. */
  predicate Holds(g: Grid, pos: Pos, p: char)
    requires IsGrid(g)
  {
    InRange(pos.row, pos.col) && g[pos.row][pos.col] == p
  }

  predicate Completes(g: Grid, line: Line, p: char)
    requires IsGrid(g)
  {
    Holds(g, line.first, p) && Holds(g, line.second, p) && Holds(g, line.third, p)
  }

  /** Reference definition of a win: `p` holds all three cells of some winning line. */
  predicate Wins(g: Grid, p: char)
    requires IsGrid(g)
  {
    exists k :: 0 <= k < 8 && Completes(g, WinningLine(k), p)
  }

  /** No cell is empty. */
  predicate Full(g: Grid)
    requires IsGrid(g)
  {
    forall i, j :: 0 <= i < 3 && 0 <= j < 3 ==> g[i][j] != Empty
  }

  /** The board with cell (row, col) set to `p`. */
  function Place(g: Grid, row: int, col: int, p: char): (r: Grid)
    requires IsGrid(g) && InRange(row, col)
    ensures IsGrid(r)
    ensures r[row][col] == p
    ensures forall i, j :: 0 <= i < 3 && 0 <= j < 3 && (i != row || j != col) ==> r[i][j] == g[i][j]
  {
    g[row := g[row][col := p]]
  }

  /**
   * The eight lines written out: a win is a full row, a full column or a full
   * diagonal, which is what a scan of the board checks.
   */
  lemma {:induction false} WinsEnumerated(g: Grid, p: char)
    requires IsGrid(g)
    ensures Wins(g, p) <==>
      || Completes(g, WinningLine(0), p) || Completes(g, WinningLine(1), p)
      || Completes(g, WinningLine(2), p) || Completes(g, WinningLine(3), p)
      || Completes(g, WinningLine(4), p) || Completes(g, WinningLine(5), p)
      || Completes(g, WinningLine(6), p) || Completes(g, WinningLine(7), p)
  {
    if Wins(g, p) {
      var k :| 0 <= k < 8 && Completes(g, WinningLine(k), p);
      assert k == 0 || k == 1 || k == 2 || k == 3 || k == 4 || k == 5 || k == 6 || k == 7;
    }
  }

  /** Two boards that agree on every cell are the same board. */
  lemma SameCells(g: Grid, h: Grid)
    requires IsGrid(g) && IsGrid(h)
    requires forall i, j :: 0 <= i < 3 && 0 <= j < 3 ==> g[i][j] == h[i][j]
    ensures g == h
  {
    forall i | 0 <= i < 3
      ensures g[i] == h[i]
    {
      assert forall j :: 0 <= j < 3 ==> g[i][j] == h[i][j];
    }
  }

  /** How many cells of a row hold `p`. */
  ghost function CountRow(row: seq<char>, p: char): nat
    requires |row| == 3
  {
    (if row[0] == p then 1 else 0) + (if row[1] == p then 1 else 0) + (if row[2] == p then 1 else 0)
  }

  /** How many cells of the board hold `p`. */
  ghost function Count(g: Grid, p: char): nat
    requires IsGrid(g)
  {
    CountRow(g[0], p) + CountRow(g[1], p) + CountRow(g[2], p)
  }

  /** Placing `p` on an empty cell adds one `p` and removes one empty cell; other counts stay. */
  lemma {:induction false} PlaceCount(g: Grid, row: int, col: int, p: char, q: char)
    requires IsGrid(g) && InRange(row, col) && g[row][col] == Empty && p != Empty
    ensures Count(Place(g, row, col, p), p) == Count(g, p) + 1
    ensures Count(Place(g, row, col, p), Empty) + 1 == Count(g, Empty)
    ensures q != p && q != Empty ==> Count(Place(g, row, col, p), q) == Count(g, q)
  {
    var r := Place(g, row, col, p);
    assert r[row] == g[row][col := p];
    forall i | 0 <= i < 3 && i != row
      ensures r[i] == g[i]
    {
    }
  }

  /** The empty board: nine empty cells, no `p` and no line for anyone. */
  lemma {:induction false} EmptyGridFacts(p: char)
    requires p != Empty
    ensures Count(EmptyGrid(), Empty) == 9 && Count(EmptyGrid(), p) == 0
    ensures !Wins(EmptyGrid(), p) && !Full(EmptyGrid())
  {
    var g := EmptyGrid();
    assert g[0][0] == Empty;
    forall k | 0 <= k < 8
      ensures !Completes(g, WinningLine(k), p)
    {
      var pos := WinningLine(k).first;
      assert InRange(pos.row, pos.col) ==> g[pos.row][pos.col] == Empty;
    }
  }

  /**
   * Placing `p` on an empty cell cannot give another player `q` a line or take
   * one away: `q`'s wins are decided by the cells that already held `q`.
   */
  lemma {:induction false} PlaceKeepsOtherWins(g: Grid, row: int, col: int, p: char, q: char)
    requires IsGrid(g) && InRange(row, col) && g[row][col] == Empty
    requires q != p && q != Empty
    ensures Wins(Place(g, row, col, p), q) == Wins(g, q)
  {
    var r := Place(g, row, col, p);
    forall pos: Pos
      ensures Holds(r, pos, q) == Holds(g, pos, q)
    {
    }
    forall k | 0 <= k < 8
      ensures Completes(r, WinningLine(k), q) == Completes(g, WinningLine(k), q)
    {
      var line := WinningLine(k);
      assert Holds(r, line.first, q) == Holds(g, line.first, q);
      assert Holds(r, line.second, q) == Holds(g, line.second, q);
      assert Holds(r, line.third, q) == Holds(g, line.third, q);
    }
  }
}
