/**
 * Two complete games played through the gate from a new game: 'X' taking
 * the top row while 'O' is once refused, and nine alternating moves that fill
 * the board without a line. Each lemma `...From<i>` runs the game from its
 * i-th attempt to the end.
 */
module Scenarios {
  import opened Board
  import opened Game

  lemma TopRowWinFrom5(s: State, t: seq<Attempt>)
    requires s == State(["XX ", "OO ", "   "], 'X', false, ' ')
    requires t == [Attempt('X', 0, 2)]
    ensures Admissible(s, t) && Run(s, t) == (State(["XXX", "OO ", "   "], 'O', true, 'X'), "X")
  {
    var next := State(["XXX", "OO ", "   "], 'O', true, 'X');
    MoveOnEmpty(s, 'X', 0, 2);
    assert s.grid[0][2 := 'X'] == next.grid[0];
    assert Place(s.grid, 0, 2, 'X') == next.grid;
    assert Completes(next.grid, WinningLine(0), 'X');
    assert t[1..] == [];
    assert Run(next, t[1..]) == (next, []);
    RunStep(s, t, next, true, next, "");
    assert ['X'] + "" == "X";
  }

  lemma TopRowWinFrom4(s: State, t: seq<Attempt>)
    requires s == State(["XX ", "O  ", "   "], 'O', false, ' ')
    requires t == [Attempt('O', 1, 1), Attempt('X', 0, 2)]
    ensures Admissible(s, t) && Run(s, t) == (State(["XXX", "OO ", "   "], 'O', true, 'X'), "OX")
  {
    var next := State(["XX ", "OO ", "   "], 'X', false, ' ');
    MoveOnEmpty(s, 'O', 1, 1);
    assert s.grid[1][1 := 'O'] == next.grid[1];
    assert Place(s.grid, 1, 1, 'O') == next.grid;
    WinsEnumerated(next.grid, 'O');
    assert next.grid[0][2] == Empty;
    assert t[1..] == [Attempt('X', 0, 2)];
    TopRowWinFrom5(next, t[1..]);
    RunStep(s, t, next, true, State(["XXX", "OO ", "   "], 'O', true, 'X'), "X");
    assert ['O'] + "X" == "OX";
  }

  lemma TopRowWinFrom3(s: State, t: seq<Attempt>)
    requires s == State(["X  ", "O  ", "   "], 'X', false, ' ')
    requires t == [Attempt('X', 0, 1), Attempt('O', 1, 1), Attempt('X', 0, 2)]
    ensures Admissible(s, t) && Run(s, t) == (State(["XXX", "OO ", "   "], 'O', true, 'X'), "XOX")
  {
    var next := State(["XX ", "O  ", "   "], 'O', false, ' ');
    MoveOnEmpty(s, 'X', 0, 1);
    assert s.grid[0][1 := 'X'] == next.grid[0];
    assert Place(s.grid, 0, 1, 'X') == next.grid;
    WinsEnumerated(next.grid, 'X');
    assert next.grid[0][2] == Empty;
    assert t[1..] == [Attempt('O', 1, 1), Attempt('X', 0, 2)];
    TopRowWinFrom4(next, t[1..]);
    RunStep(s, t, next, true, State(["XXX", "OO ", "   "], 'O', true, 'X'), "OX");
    assert ['X'] + "OX" == "XOX";
  }

  lemma TopRowWinFrom2(s: State, t: seq<Attempt>)
    requires s == State(["X  ", "   ", "   "], 'O', false, ' ')
    requires t == [Attempt('O', 1, 0), Attempt('X', 0, 1), Attempt('O', 1, 1), Attempt('X', 0, 2)]
    ensures Admissible(s, t) && Run(s, t) == (State(["XXX", "OO ", "   "], 'O', true, 'X'), "OXOX")
  {
    var next := State(["X  ", "O  ", "   "], 'X', false, ' ');
    MoveOnEmpty(s, 'O', 1, 0);
    assert s.grid[1][0 := 'O'] == next.grid[1];
    assert Place(s.grid, 1, 0, 'O') == next.grid;
    WinsEnumerated(next.grid, 'O');
    assert next.grid[0][1] == Empty;
    assert t[1..] == [Attempt('X', 0, 1), Attempt('O', 1, 1), Attempt('X', 0, 2)];
    TopRowWinFrom3(next, t[1..]);
    RunStep(s, t, next, true, State(["XXX", "OO ", "   "], 'O', true, 'X'), "XOX");
    assert ['O'] + "XOX" == "OXOX";
  }

  lemma TopRowWinFrom1(s: State, t: seq<Attempt>)
    requires s == State(["X  ", "   ", "   "], 'O', false, ' ')
    requires t == [Attempt('O', 0, 0), Attempt('O', 1, 0), Attempt('X', 0, 1), Attempt('O', 1, 1), Attempt('X', 0, 2)]
    ensures Admissible(s, t) && Run(s, t) == (State(["XXX", "OO ", "   "], 'O', true, 'X'), "OXOX")
  {
    var next := State(["X  ", "   ", "   "], 'O', false, ' ');
    assert Move(s, 'O', 0, 0) == (next, false);
    assert t[1..] == [Attempt('O', 1, 0), Attempt('X', 0, 1), Attempt('O', 1, 1), Attempt('X', 0, 2)];
    TopRowWinFrom2(next, t[1..]);
    RunStep(s, t, next, false, State(["XXX", "OO ", "   "], 'O', true, 'X'), "OXOX");
  }

  /** 'X' takes the top row; 'O' first tries the occupied corner, is refused and keeps the turn. */
  lemma TopRowWin(t: seq<Attempt>)
    requires t == [Attempt('X', 0, 0), Attempt('O', 0, 0), Attempt('O', 1, 0), Attempt('X', 0, 1), Attempt('O', 1, 1), Attempt('X', 0, 2)]
    ensures Admissible(Init(), t)
    ensures Run(Init(), t).0.over && Run(Init(), t).0.winner == 'X'
    ensures Run(Init(), t).0.grid[0] == "XXX"
    ensures Run(Init(), t).1 == "XOXOX"
  {
    var s := Init();
    var next := State(["X  ", "   ", "   "], 'O', false, ' ');
    MoveOnEmpty(s, 'X', 0, 0);
    assert s.grid[0][0 := 'X'] == next.grid[0];
    assert Place(s.grid, 0, 0, 'X') == next.grid;
    WinsEnumerated(next.grid, 'X');
    assert next.grid[0][1] == Empty;
    assert t[1..] == [Attempt('O', 0, 0), Attempt('O', 1, 0), Attempt('X', 0, 1), Attempt('O', 1, 1), Attempt('X', 0, 2)];
    TopRowWinFrom1(next, t[1..]);
    RunStep(s, t, next, true, State(["XXX", "OO ", "   "], 'O', true, 'X'), "OXOX");
    assert ['X'] + "OXOX" == "XOXOX";
  }

  lemma FullBoardDrawFrom8(s: State, t: seq<Attempt>)
    requires s == State(["XOX", "XOO", "OX "], 'X', false, ' ')
    requires t == [Attempt('X', 2, 2)]
    ensures Admissible(s, t) && Run(s, t) == (State(["XOX", "XOO", "OXX"], 'O', true, 'D'), "X")
  {
    var next := State(["XOX", "XOO", "OXX"], 'O', true, 'D');
    MoveOnEmpty(s, 'X', 2, 2);
    assert s.grid[2][2 := 'X'] == next.grid[2];
    assert Place(s.grid, 2, 2, 'X') == next.grid;
    WinsEnumerated(next.grid, 'X');
    assert t[1..] == [];
    assert Run(next, t[1..]) == (next, []);
    RunStep(s, t, next, true, next, "");
    assert ['X'] + "" == "X";
  }

  lemma FullBoardDrawFrom7(s: State, t: seq<Attempt>)
    requires s == State(["XOX", "XOO", " X "], 'O', false, ' ')
    requires t == [Attempt('O', 2, 0), Attempt('X', 2, 2)]
    ensures Admissible(s, t) && Run(s, t) == (State(["XOX", "XOO", "OXX"], 'O', true, 'D'), "OX")
  {
    var next := State(["XOX", "XOO", "OX "], 'X', false, ' ');
    MoveOnEmpty(s, 'O', 2, 0);
    assert s.grid[2][0 := 'O'] == next.grid[2];
    assert Place(s.grid, 2, 0, 'O') == next.grid;
    WinsEnumerated(next.grid, 'O');
    assert next.grid[2][2] == Empty;
    assert t[1..] == [Attempt('X', 2, 2)];
    FullBoardDrawFrom8(next, t[1..]);
    RunStep(s, t, next, true, State(["XOX", "XOO", "OXX"], 'O', true, 'D'), "X");
    assert ['O'] + "X" == "OX";
  }

  lemma FullBoardDrawFrom6(s: State, t: seq<Attempt>)
    requires s == State(["XOX", "XOO", "   "], 'X', false, ' ')
    requires t == [Attempt('X', 2, 1), Attempt('O', 2, 0), Attempt('X', 2, 2)]
    ensures Admissible(s, t) && Run(s, t) == (State(["XOX", "XOO", "OXX"], 'O', true, 'D'), "XOX")
  {
    var next := State(["XOX", "XOO", " X "], 'O', false, ' ');
    MoveOnEmpty(s, 'X', 2, 1);
    assert s.grid[2][1 := 'X'] == next.grid[2];
    assert Place(s.grid, 2, 1, 'X') == next.grid;
    WinsEnumerated(next.grid, 'X');
    assert next.grid[2][0] == Empty;
    assert t[1..] == [Attempt('O', 2, 0), Attempt('X', 2, 2)];
    FullBoardDrawFrom7(next, t[1..]);
    RunStep(s, t, next, true, State(["XOX", "XOO", "OXX"], 'O', true, 'D'), "OX");
    assert ['X'] + "OX" == "XOX";
  }

  lemma FullBoardDrawFrom5(s: State, t: seq<Attempt>)
    requires s == State(["XOX", "XO ", "   "], 'O', false, ' ')
    requires t == [Attempt('O', 1, 2), Attempt('X', 2, 1), Attempt('O', 2, 0), Attempt('X', 2, 2)]
    ensures Admissible(s, t) && Run(s, t) == (State(["XOX", "XOO", "OXX"], 'O', true, 'D'), "OXOX")
  {
    var next := State(["XOX", "XOO", "   "], 'X', false, ' ');
    MoveOnEmpty(s, 'O', 1, 2);
    assert s.grid[1][2 := 'O'] == next.grid[1];
    assert Place(s.grid, 1, 2, 'O') == next.grid;
    WinsEnumerated(next.grid, 'O');
    assert next.grid[2][0] == Empty;
    assert t[1..] == [Attempt('X', 2, 1), Attempt('O', 2, 0), Attempt('X', 2, 2)];
    FullBoardDrawFrom6(next, t[1..]);
    RunStep(s, t, next, true, State(["XOX", "XOO", "OXX"], 'O', true, 'D'), "XOX");
    assert ['O'] + "XOX" == "OXOX";
  }

  lemma FullBoardDrawFrom4(s: State, t: seq<Attempt>)
    requires s == State(["XOX", " O ", "   "], 'X', false, ' ')
    requires t == [Attempt('X', 1, 0), Attempt('O', 1, 2), Attempt('X', 2, 1), Attempt('O', 2, 0), Attempt('X', 2, 2)]
    ensures Admissible(s, t) && Run(s, t) == (State(["XOX", "XOO", "OXX"], 'O', true, 'D'), "XOXOX")
  {
    var next := State(["XOX", "XO ", "   "], 'O', false, ' ');
    MoveOnEmpty(s, 'X', 1, 0);
    assert s.grid[1][0 := 'X'] == next.grid[1];
    assert Place(s.grid, 1, 0, 'X') == next.grid;
    WinsEnumerated(next.grid, 'X');
    assert next.grid[1][2] == Empty;
    assert t[1..] == [Attempt('O', 1, 2), Attempt('X', 2, 1), Attempt('O', 2, 0), Attempt('X', 2, 2)];
    FullBoardDrawFrom5(next, t[1..]);
    RunStep(s, t, next, true, State(["XOX", "XOO", "OXX"], 'O', true, 'D'), "OXOX");
    assert ['X'] + "OXOX" == "XOXOX";
  }

  lemma FullBoardDrawFrom3(s: State, t: seq<Attempt>)
    requires s == State(["XOX", "   ", "   "], 'O', false, ' ')
    requires t == [Attempt('O', 1, 1), Attempt('X', 1, 0), Attempt('O', 1, 2), Attempt('X', 2, 1), Attempt('O', 2, 0), Attempt('X', 2, 2)]
    ensures Admissible(s, t) && Run(s, t) == (State(["XOX", "XOO", "OXX"], 'O', true, 'D'), "OXOXOX")
  {
    var next := State(["XOX", " O ", "   "], 'X', false, ' ');
    MoveOnEmpty(s, 'O', 1, 1);
    assert s.grid[1][1 := 'O'] == next.grid[1];
    assert Place(s.grid, 1, 1, 'O') == next.grid;
    WinsEnumerated(next.grid, 'O');
    assert next.grid[1][0] == Empty;
    assert t[1..] == [Attempt('X', 1, 0), Attempt('O', 1, 2), Attempt('X', 2, 1), Attempt('O', 2, 0), Attempt('X', 2, 2)];
    FullBoardDrawFrom4(next, t[1..]);
    RunStep(s, t, next, true, State(["XOX", "XOO", "OXX"], 'O', true, 'D'), "XOXOX");
    assert ['O'] + "XOXOX" == "OXOXOX";
  }

  lemma FullBoardDrawFrom2(s: State, t: seq<Attempt>)
    requires s == State(["XO ", "   ", "   "], 'X', false, ' ')
    requires t == [Attempt('X', 0, 2), Attempt('O', 1, 1), Attempt('X', 1, 0), Attempt('O', 1, 2), Attempt('X', 2, 1), Attempt('O', 2, 0), Attempt('X', 2, 2)]
    ensures Admissible(s, t) && Run(s, t) == (State(["XOX", "XOO", "OXX"], 'O', true, 'D'), "XOXOXOX")
  {
    var next := State(["XOX", "   ", "   "], 'O', false, ' ');
    MoveOnEmpty(s, 'X', 0, 2);
    assert s.grid[0][2 := 'X'] == next.grid[0];
    assert Place(s.grid, 0, 2, 'X') == next.grid;
    WinsEnumerated(next.grid, 'X');
    assert next.grid[1][0] == Empty;
    assert t[1..] == [Attempt('O', 1, 1), Attempt('X', 1, 0), Attempt('O', 1, 2), Attempt('X', 2, 1), Attempt('O', 2, 0), Attempt('X', 2, 2)];
    FullBoardDrawFrom3(next, t[1..]);
    RunStep(s, t, next, true, State(["XOX", "XOO", "OXX"], 'O', true, 'D'), "OXOXOX");
    assert ['X'] + "OXOXOX" == "XOXOXOX";
  }

  lemma FullBoardDrawFrom1(s: State, t: seq<Attempt>)
    requires s == State(["X  ", "   ", "   "], 'O', false, ' ')
    requires t == [Attempt('O', 0, 1), Attempt('X', 0, 2), Attempt('O', 1, 1), Attempt('X', 1, 0), Attempt('O', 1, 2), Attempt('X', 2, 1), Attempt('O', 2, 0), Attempt('X', 2, 2)]
    ensures Admissible(s, t) && Run(s, t) == (State(["XOX", "XOO", "OXX"], 'O', true, 'D'), "OXOXOXOX")
  {
    var next := State(["XO ", "   ", "   "], 'X', false, ' ');
    MoveOnEmpty(s, 'O', 0, 1);
    assert s.grid[0][1 := 'O'] == next.grid[0];
    assert Place(s.grid, 0, 1, 'O') == next.grid;
    WinsEnumerated(next.grid, 'O');
    assert next.grid[0][2] == Empty;
    assert t[1..] == [Attempt('X', 0, 2), Attempt('O', 1, 1), Attempt('X', 1, 0), Attempt('O', 1, 2), Attempt('X', 2, 1), Attempt('O', 2, 0), Attempt('X', 2, 2)];
    FullBoardDrawFrom2(next, t[1..]);
    RunStep(s, t, next, true, State(["XOX", "XOO", "OXX"], 'O', true, 'D'), "XOXOXOX");
    assert ['O'] + "XOXOXOX" == "OXOXOXOX";
  }

  /** Nine alternating moves fill the board with no line: the game ends in a draw after the fifth 'X'. */
  lemma FullBoardDraw(t: seq<Attempt>)
    requires t == [Attempt('X', 0, 0), Attempt('O', 0, 1), Attempt('X', 0, 2), Attempt('O', 1, 1), Attempt('X', 1, 0), Attempt('O', 1, 2), Attempt('X', 2, 1), Attempt('O', 2, 0), Attempt('X', 2, 2)]
    ensures Admissible(Init(), t)
    ensures Run(Init(), t).0.over && Run(Init(), t).0.winner == 'D'
    ensures Run(Init(), t).0.current == 'O'
    ensures Run(Init(), t).1 == "XOXOXOXOX"
  {
    var s := Init();
    var next := State(["X  ", "   ", "   "], 'O', false, ' ');
    MoveOnEmpty(s, 'X', 0, 0);
    assert s.grid[0][0 := 'X'] == next.grid[0];
    assert Place(s.grid, 0, 0, 'X') == next.grid;
    WinsEnumerated(next.grid, 'X');
    assert next.grid[0][1] == Empty;
    assert t[1..] == [Attempt('O', 0, 1), Attempt('X', 0, 2), Attempt('O', 1, 1), Attempt('X', 1, 0), Attempt('O', 1, 2), Attempt('X', 2, 1), Attempt('O', 2, 0), Attempt('X', 2, 2)];
    FullBoardDrawFrom1(next, t[1..]);
    RunStep(s, t, next, true, State(["XOX", "XOO", "OXX"], 'O', true, 'D'), "OXOXOXOX");
    assert ['X'] + "OXOXOXOX" == "XOXOXOXOX";
  }
}
