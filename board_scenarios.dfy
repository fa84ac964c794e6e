/** The board-level examples of the board's test suite: a fixture that
    builds a board from its cells, and the queries the suite asks of it. */
module BoardScenarios {
  import opened Grid
  import opened LineScanner
  import opened TicTacToe
  import opened Scenarios

  /** Stands in for the suite's `test_board` fixture: a fresh board of size
      `n` holding exactly `cells`, built here by placing each piece of
      `cells` on a new board. */
  method TestBoard(cells: Cells, n: nat, player: Piece, opponent: Piece) returns (b: Board)
    requires n >= 1 && Square(cells, n)
    ensures fresh(b) && fresh(b.grid) && b.Valid()
    ensures b.size == n && b.playerPiece == player && b.opponentPiece == opponent
    ensures b.Rows() == cells
  {
    b := new Board(n, player, opponent);
    var r := 0;
    while r < n
      invariant 0 <= r <= n
      invariant fresh(b) && fresh(b.grid) && b.Valid() && b.size == n
      invariant b.playerPiece == player && b.opponentPiece == opponent
      invariant forall i, j :: 0 <= i < n && 0 <= j < n ==>
        b.grid[i, j] == if i < r then cells[i][j] else Blank
    {
      var c := 0;
      while c < n
        invariant 0 <= c <= n
        invariant forall i, j :: 0 <= i < n && 0 <= j < n ==>
          b.grid[i, j] == if i < r || (i == r && j < c) then cells[i][j] else Blank
      {
        var self := b.PlacePiece(cells[r][c], Coord(r, c));
        c := c + 1;
      }
      r := r + 1;
    }
    assert forall i :: 0 <= i < n ==> b.Rows()[i] == cells[i];
  }

  /** A new 3 x 3 board: nine spaces, every cell available in row-major
      order, blank, and the four corners in order. */
  method NewBoardQueries() returns (spaces: nat, moves: seq<Coord>, blank: bool, corners: seq<Coord>)
    ensures spaces == 9 && blank
    ensures moves == [Coord(0, 0), Coord(0, 1), Coord(0, 2), Coord(1, 0), Coord(1, 1),
                      Coord(1, 2), Coord(2, 0), Coord(2, 1), Coord(2, 2)]
    ensures corners == [Coord(0, 0), Coord(0, 2), Coord(2, 0), Coord(2, 2)]
  {
    var b := new Board(3, "x", "o");
    spaces := b.NumberOfSpaces();
    moves := b.AvailableMoves();
    blank := b.IsBlank();
    corners := b.CornerSpaces();
    NewBoardMovesInOrder();
  }

  /** Every cell of a new 3 x 3 board is available, in row-major order. */
  lemma NewBoardMovesInOrder()
    ensures Available(BlankCells(3)) == [Coord(0, 0), Coord(0, 1), Coord(0, 2), Coord(1, 0),
      Coord(1, 1), Coord(1, 2), Coord(2, 0), Coord(2, 1), Coord(2, 2)]
  {
    assert RowMajor(3, 3) == [Coord(0, 0), Coord(0, 1), Coord(0, 2), Coord(1, 0),
      Coord(1, 1), Coord(1, 2), Coord(2, 0), Coord(2, 1), Coord(2, 2)] by {
      assert RowCoords(3, 0) == [Coord(0, 0), Coord(0, 1), Coord(0, 2)];
      assert RowCoords(3, 1) == [Coord(1, 0), Coord(1, 1), Coord(1, 2)];
      assert RowCoords(3, 2) == [Coord(2, 0), Coord(2, 1), Coord(2, 2)];
    }
    AvailableOfBlankCells(3);
  }

  /** A new 4 x 4 board offers sixteen moves. */
  method LargeBoardMoves() returns (count: nat)
    ensures count == 16
  {
    var b := new Board(4, "x", "o");
    var moves := b.AvailableMoves();
    AvailableOfBlankCells(4);
    count := |moves|;
  }

  /** Placing x at [0, 2] on a new board takes that move away and leaves the
      board no longer blank. */
  method PlaceTakesMove() returns (moves: seq<Coord>, blank: bool)
    ensures Coord(0, 2) !in moves && |moves| == 8 && !blank
  {
    var b := new Board(3, "x", "o");
    var self := b.PlacePiece("x", Coord(0, 2));
    moves := b.AvailableMoves();
    blank := b.IsBlank();
    AvailableOfBlankCells(3);
    AvailableAfterPlace(BlankCells(3), Coord(0, 2), "x");
  }

  /** Placing a blank piece changes nothing: all nine moves remain. */
  method PlaceBlankKeepsMoves() returns (count: nat)
    ensures count == 9
  {
    var b := new Board(3, "x", "o");
    var self := b.PlacePiece(Blank, Coord(0, 2));
    var moves := b.AvailableMoves();
    AvailableOfBlankCells(3);
    count := |moves|;
  }

  /** After x is placed at [0, 0] the other eight cells remain, in order. */
  method PlaceHidesMove() returns (moves: seq<Coord>)
    ensures moves == [Coord(0, 1), Coord(0, 2), Coord(1, 0), Coord(1, 1),
                      Coord(1, 2), Coord(2, 0), Coord(2, 1), Coord(2, 2)]
  {
    var b := new Board(3, "x", "o");
    var self := b.PlacePiece("x", Coord(0, 0));
    moves := b.AvailableMoves();
    MovesAfterCornerTaken();
  }

  /** Once [0, 0] is taken on a new 3 x 3 board, the other eight cells remain
      available, in row-major order. */
  lemma MovesAfterCornerTaken()
    ensures Available(Place(BlankCells(3), Coord(0, 0), "x")) ==
      [Coord(0, 1), Coord(0, 2), Coord(1, 0), Coord(1, 1), Coord(1, 2), Coord(2, 0), Coord(2, 1), Coord(2, 2)]
  {
    NewBoardMovesInOrder();
    AvailableAfterPlace(BlankCells(3), Coord(0, 0), "x");
    WithoutHead(Available(BlankCells(3)));
  }

  /** "xoxoxox__": two blank cells, [2, 1] and [2, 2]. */
  const Xoxoxox: Cells := [["x", "o", "x"], ["o", "x", "o"], ["x", "", ""]]

  /** Only the two bottom-right cells of "xoxoxox__" are blank. */
  lemma XoxoxoxBlanks(d: Coord)
    requires IsBlankAt(Xoxoxox, d)
    ensures d == Coord(2, 1) || d == Coord(2, 2)
  {
    if d.row == 0 {
    } else if d.row == 1 {
    } else {
      assert d.col != 0;
    }
  }

  /** "xoxoxox__" does not have exactly one blank cell; after x takes [2, 1]
      it has exactly one. */
  lemma XoxoxoxLastMove()
    ensures !exists c :: OnlyBlankAt(Xoxoxox, c)
    ensures exists c :: OnlyBlankAt(Place(Xoxoxox, Coord(2, 1), "x"), c)
  {
    var g := Place(Xoxoxox, Coord(2, 1), "x");
    assert IsBlankAt(Xoxoxox, Coord(2, 1)) && IsBlankAt(Xoxoxox, Coord(2, 2));
    forall d | IsBlankAt(g, d)
      ensures d == Coord(2, 2)
    {
      if d != Coord(2, 1) {
        assert At(g, d) == At(Xoxoxox, d);
        XoxoxoxBlanks(d);
      }
    }
    assert OnlyBlankAt(g, Coord(2, 2));
  }

  /** On "xoxoxox__" the board does not report a last move; once x takes
      [2, 1], it does. */
  method LastMoveReported() returns (before: bool, after: bool)
    ensures !before && after
  {
    var b := TestBoard(Xoxoxox, 3, "x", "o");
    before := b.IsLastMove();
    var self := b.PlacePiece("x", Coord(2, 1));
    after := b.IsLastMove();
    XoxoxoxLastMove();
  }

  /** Every cell of "xoxxxooxo" holds a piece. */
  lemma DrawnBoardFull()
    ensures Full([["x", "o", "x"], ["x", "x", "o"], ["o", "x", "o"]], 3)
  {
    var g: Cells := [["x", "o", "x"], ["x", "x", "o"], ["o", "x", "o"]];
    forall c | InRange(c, 3)
      ensures !IsBlankAt(g, c)
    {
      if c.row == 0 {
      } else if c.row == 1 {
      } else {
      }
    }
  }

  /** On "xxxo_o___" x has won with the top row; the game is over, not drawn. */
  method TopRowVictory() returns (won: bool, draw: bool, over: bool)
    ensures won && !draw && over
  {
    var b := TestBoard([["x", "x", "x"], ["o", "", "o"], ["", "", ""]], 3, "x", "o");
    TopRowWin();
    won := b.Won("x");
    draw := b.Draw();
    over := b.Over();
  }

  /** On "o__xxx_o_" x has won with the middle row; the game is over, not drawn. */
  method MiddleRowVictory() returns (won: bool, draw: bool, over: bool)
    ensures won && !draw && over
  {
    var b := TestBoard([["o", "", ""], ["x", "x", "x"], ["", "o", ""]], 3, "x", "o");
    MiddleRowWin();
    won := b.Won("x");
    draw := b.Draw();
    over := b.Over();
  }

  /** On "o__o__xxx" x has won with the bottom row; the game is over, not drawn. */
  method BottomRowVictory() returns (won: bool, draw: bool, over: bool)
    ensures won && !draw && over
  {
    var b := TestBoard([["o", "", ""], ["o", "", ""], ["x", "x", "x"]], 3, "x", "o");
    BottomRowWin();
    won := b.Won("x");
    draw := b.Draw();
    over := b.Over();
  }

  /** On "x_oxo_x__" x has won with the left column; the game is over, not drawn. */
  method LeftColumnVictory() returns (won: bool, draw: bool, over: bool)
    ensures won && !draw && over
  {
    var b := TestBoard([["x", "", "o"], ["x", "o", ""], ["x", "", ""]], 3, "x", "o");
    LeftColumnWin();
    won := b.Won("x");
    draw := b.Draw();
    over := b.Over();
  }

  /** On "_xo_x_ox_" x has won with the middle column; the game is over, not drawn. */
  method MiddleColumnVictory() returns (won: bool, draw: bool, over: bool)
    ensures won && !draw && over
  {
    var b := TestBoard([["", "x", "o"], ["", "x", ""], ["o", "x", ""]], 3, "x", "o");
    MiddleColumnWin();
    won := b.Won("x");
    draw := b.Draw();
    over := b.Over();
  }

  /** On "__x_ox_ox" x has won with the right column; the game is over, not drawn. */
  method RightColumnVictory() returns (won: bool, draw: bool, over: bool)
    ensures won && !draw && over
  {
    var b := TestBoard([["", "", "x"], ["", "o", "x"], ["", "o", "x"]], 3, "x", "o");
    RightColumnWin();
    won := b.Won("x");
    draw := b.Draw();
    over := b.Over();
  }

  /** On "xo__xo__x" x has won and o has lost; the game is over, not drawn. */
  method DiagonalVictory() returns (won: bool, lost: bool, draw: bool, over: bool)
    ensures won && lost && !draw && over
  {
    var b := TestBoard([["x", "o", ""], ["", "x", "o"], ["", "", "x"]], 3, "x", "o");
    DiagonalWin();
    won := b.Won("x");
    lost := b.Lost("o");
    draw := b.Draw();
    over := b.Over();
  }

  /** On "x_o_o_o_x" o has won; the game is over, not drawn. */
  method AntiDiagonalVictory() returns (won: bool, draw: bool, over: bool)
    ensures won && !draw && over
  {
    var b := TestBoard([["x", "", "o"], ["", "o", ""], ["o", "", "x"]], 3, "x", "o");
    AntiDiagonalWin();
    won := b.Won("o");
    draw := b.Draw();
    over := b.Over();
  }

  /** "xoxxxooxo" is full with no line filled: no winner, a draw, and over. */
  method DrawReported() returns (found: bool, draw: bool, over: bool)
    ensures !found && draw && over
  {
    var b := TestBoard([["x", "o", "x"], ["x", "x", "o"], ["o", "x", "o"]], 3, "x", "o");
    DrawnBoard();
    DrawnBoardFull();
    found := b.WinnerExists();
    draw := b.Draw();
    over := b.Over();
  }

  /** On "o_x_x_x_o" somebody has won. */
  method WinnerReported() returns (found: bool)
    ensures found
  {
    var b := TestBoard([["o", "", "x"], ["", "x", ""], ["x", "", "o"]], 3, "x", "o");
    AntiDiagonalWinX();
    found := b.WinnerExists();
  }

  /** On "xooo_x____x____x" x has won on a 4 x 4 board with the main diagonal; the game is over, not drawn. */
  method LargeDiagonalVictory() returns (won: bool, draw: bool, over: bool)
    ensures won && !draw && over
  {
    var b := TestBoard([["x", "o", "o", "o"], ["", "x", "", ""], ["", "", "x", ""], ["", "", "", "x"]], 4, "x", "o");
    LargeDiagonalWin();
    won := b.Won("x");
    draw := b.Draw();
    over := b.Over();
  }

  /** On "ooox__x__x__x___" x has won on a 4 x 4 board with the anti-diagonal; the game is over, not drawn. */
  method LargeAntiDiagonalVictory() returns (won: bool, draw: bool, over: bool)
    ensures won && !draw && over
  {
    var b := TestBoard([["o", "o", "o", "x"], ["", "", "x", ""], ["", "x", "", ""], ["x", "", "", ""]], 4, "x", "o");
    LargeAntiDiagonalWin();
    won := b.Won("x");
    draw := b.Draw();
    over := b.Over();
  }

  /** On "ooo_____xxxx____" x has won on a 4 x 4 board with the third row; the game is over, not drawn. */
  method LargeRowVictory() returns (won: bool, draw: bool, over: bool)
    ensures won && !draw && over
  {
    var b := TestBoard([["o", "o", "o", ""], ["", "", "", ""], ["x", "x", "x", "x"], ["", "", "", ""]], 4, "x", "o");
    LargeRowWin();
    won := b.Won("x");
    draw := b.Draw();
    over := b.Over();
  }

  /** On "_xooox___x___x__" x has won on a 4 x 4 board with the second column; the game is over, not drawn. */
  method LargeColumnVictory() returns (won: bool, draw: bool, over: bool)
    ensures won && !draw && over
  {
    var b := TestBoard([["", "x", "o", "o"], ["o", "x", "", ""], ["", "x", "", ""], ["", "x", "", ""]], 4, "x", "o");
    LargeColumnWin();
    won := b.Won("x");
    draw := b.Draw();
    over := b.Over();
  }

  /** "xo_______" has no winning line. */
  method NoWinningLine() returns (line: Option<seq<Coord>>)
    ensures line == None
  {
    var b := TestBoard([["x", "o", ""], ["", "", ""], ["", "", ""]], 3, "x", "o");
    OpeningBoard();
    line := b.WinningLine();
  }

  /** The winning line of the middle row of "o__xxx_o_", as its cells in line order. */
  method MiddleRowLine() returns (line: Option<seq<Coord>>)
    ensures line == Some([Coord(1, 0), Coord(1, 1), Coord(1, 2)])
  {
    var b := TestBoard([["o", "", ""], ["x", "x", "x"], ["", "o", ""]], 3, "x", "o");
    MiddleRowWin();
    line := b.WinningLine();
  }

  /** The winning line of the right column of "__x_ox_ox", as its cells in line order. */
  method RightColumnLine() returns (line: Option<seq<Coord>>)
    ensures line == Some([Coord(0, 2), Coord(1, 2), Coord(2, 2)])
  {
    var b := TestBoard([["", "", "x"], ["", "o", "x"], ["", "o", "x"]], 3, "x", "o");
    RightColumnWin();
    line := b.WinningLine();
  }

  /** The winning line of the main diagonal of "xo__xo__x", as its cells in line order. */
  method DiagonalLine() returns (line: Option<seq<Coord>>)
    ensures line == Some([Coord(0, 0), Coord(1, 1), Coord(2, 2)])
  {
    var b := TestBoard([["x", "o", ""], ["", "x", "o"], ["", "", "x"]], 3, "x", "o");
    DiagonalWin();
    line := b.WinningLine();
  }

  /** The winning line of the anti-diagonal of "x_o_o_o_x", as its cells in line order. */
  method AntiDiagonalLine() returns (line: Option<seq<Coord>>)
    ensures line == Some([Coord(0, 2), Coord(1, 1), Coord(2, 0)])
  {
    var b := TestBoard([["x", "", "o"], ["", "o", ""], ["o", "", "x"]], 3, "x", "o");
    AntiDiagonalWin();
    line := b.WinningLine();
  }

  /** The winner of "x_o_o_o_x" is o. */
  method WinnerPiece() returns (winner: Option<Piece>)
    ensures winner == Some("o")
  {
    var b := TestBoard([["x", "", "o"], ["", "o", ""], ["o", "", "x"]], 3, "x", "o");
    AntiDiagonalWin();
    winner := b.Winner();
  }

  /** On "xo_______" the player's piece is x; after x takes [1, 1] and the
      board is handed off, the copy's player is o and its opponent x. */
  method HandOffSwapsPieces() returns (before: Piece, player: Piece, opponent: Piece)
    ensures before == "x" && player == "o" && opponent == "x"
  {
    var b := TestBoard([["x", "o", ""], ["", "", ""], ["", "", ""]], 3, "x", "o");
    before := b.playerPiece;
    var self := b.PlacePiece("x", Coord(1, 1));
    var handed := b.HandOff();
    player, opponent := handed.playerPiece, handed.opponentPiece;
  }

  /** Taking two different cells of a board on which both were blank
      leaves two different sets of moves. */
  lemma PlacementsDiverge(g: Cells, c: Coord, d: Coord, p: Piece)
    requires IsBlankAt(g, c) && IsBlankAt(g, d) && c != d && p != Blank
    ensures d in Available(Place(g, c, p)) && d !in Available(Place(g, d, p))
    ensures Available(Place(g, c, p)) != Available(Place(g, d, p))
  {
    AvailableAfterPlace(g, d, p);
    assert IsBlankAt(Place(g, c, p), d);
  }

  /** Two hand-offs of one board are independent copies: a piece placed at
      `c` on the first and at `d` on the second, both blank before, leaves
      `c` blank on the second, and the two copies offer different moves. */
  method HandOffsIndependent(b: Board, p: Piece, c: Coord, d: Coord) returns (cell: Piece, differ: bool)
    requires b.Valid() && IsBlankAt(b.Rows(), c) && IsBlankAt(b.Rows(), d) && c != d && p != Blank
    ensures cell == Blank && differ
  {
    ghost var g := b.Rows();
    PlacementsDiverge(g, c, d, p);
    var b1 := b.HandOff();
    var b2 := b.HandOff();
    assert b1.grid != b2.grid;
    var self1 := b1.PlacePiece(p, c);
    ghost var g1 := b1.Rows();
    assert g1 == Place(g, c, p);
    var self2 := b2.PlacePiece(p, d);
    assert b1.Rows() == g1;
    assert b2.Rows() == Place(g, d, p);
    cell := b2.grid[c.row, c.col];
    assert cell == At(b2.Rows(), c);
    var moves1 := b1.AvailableMoves();
    var moves2 := b2.AvailableMoves();
    differ := moves1 != moves2;
  }

  /** On "xo_______", x placed at [1, 1] on one hand-off and at [2, 2] on
      another leaves [1, 1] blank on the second, and the two offer different
      moves. */
  method HandOffCopiesDeeply() returns (cell: Piece, differ: bool)
    ensures cell == Blank && differ
  {
    var b := TestBoard([["x", "o", ""], ["", "", ""], ["", "", ""]], 3, "x", "o");
    assert IsBlankAt(b.Rows(), Coord(1, 1)) && IsBlankAt(b.Rows(), Coord(2, 2));
    cell, differ := HandOffsIndependent(b, "x", Coord(1, 1), Coord(2, 2));
  }
}
