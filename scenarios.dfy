/** The example boards of the board's test suite, written out as cells
    (row-major strings in the comments, '_' for a blank), with what the
    scan reports for each. */
module Scenarios {
  import opened Grid
  import opened LineScanner

  /** The 8 candidate lines of a 3 x 3 board, in scan order. */
  lemma Lines3()
    ensures CandidateLines(3)[0] == [Coord(0, 0), Coord(0, 1), Coord(0, 2)]
    ensures CandidateLines(3)[1] == [Coord(1, 0), Coord(1, 1), Coord(1, 2)]
    ensures CandidateLines(3)[2] == [Coord(2, 0), Coord(2, 1), Coord(2, 2)]
    ensures CandidateLines(3)[3] == [Coord(0, 0), Coord(1, 0), Coord(2, 0)]
    ensures CandidateLines(3)[4] == [Coord(0, 1), Coord(1, 1), Coord(2, 1)]
    ensures CandidateLines(3)[5] == [Coord(0, 2), Coord(1, 2), Coord(2, 2)]
    ensures CandidateLines(3)[6] == [Coord(0, 0), Coord(1, 1), Coord(2, 2)]
    ensures CandidateLines(3)[7] == [Coord(0, 2), Coord(1, 1), Coord(2, 0)]
  {
    var lines := CandidateLines(3);
    assert lines[0] == RowCoords(3, 0) == [Coord(0, 0), Coord(0, 1), Coord(0, 2)];
    assert lines[1] == RowCoords(3, 1) == [Coord(1, 0), Coord(1, 1), Coord(1, 2)];
    assert lines[2] == RowCoords(3, 2) == [Coord(2, 0), Coord(2, 1), Coord(2, 2)];
    assert lines[3] == ColumnCoords(3, 0) == [Coord(0, 0), Coord(1, 0), Coord(2, 0)];
    assert lines[4] == ColumnCoords(3, 1) == [Coord(0, 1), Coord(1, 1), Coord(2, 1)];
    assert lines[5] == ColumnCoords(3, 2) == [Coord(0, 2), Coord(1, 2), Coord(2, 2)];
    assert lines[6] == MainDiagonal(3) == [Coord(0, 0), Coord(1, 1), Coord(2, 2)];
    assert lines[7] == AntiDiagonal(3) == [Coord(0, 2), Coord(1, 1), Coord(2, 0)];
  }

  /** "xxxo_o___": x fills the top row. */
  lemma TopRowWin()
    ensures FindWinningLine([["x", "x", "x"], ["o", "", "o"], ["", "", ""]], 3)
      == Some(Win(CandidateLines(3)[0], "x"))
  {
    ScanFound([["x", "x", "x"], ["o", "", "o"], ["", "", ""]], 3, 0, "x");
  }

  /** "o__xxx_o_": x fills the middle row. */
  lemma MiddleRowWin()
    ensures FindWinningLine([["o", "", ""], ["x", "x", "x"], ["", "o", ""]], 3)
      == Some(Win([Coord(1, 0), Coord(1, 1), Coord(1, 2)], "x"))
  {
    ScanFound([["o", "", ""], ["x", "x", "x"], ["", "o", ""]], 3, 1, "x");
    Lines3();
  }

  /** "o__o__xxx": x fills the bottom row. */
  lemma BottomRowWin()
    ensures FindWinningLine([["o", "", ""], ["o", "", ""], ["x", "x", "x"]], 3)
      == Some(Win(CandidateLines(3)[2], "x"))
  {
    ScanFound([["o", "", ""], ["o", "", ""], ["x", "x", "x"]], 3, 2, "x");
  }

  /** "x_oxo_x__": x fills the left column. */
  lemma LeftColumnWin()
    ensures FindWinningLine([["x", "", "o"], ["x", "o", ""], ["x", "", ""]], 3)
      == Some(Win(CandidateLines(3)[3], "x"))
  {
    ScanFound([["x", "", "o"], ["x", "o", ""], ["x", "", ""]], 3, 3, "x");
  }

  /** "_xo_x_ox_": x fills the middle column. */
  lemma MiddleColumnWin()
    ensures FindWinningLine([["", "x", "o"], ["", "x", ""], ["o", "x", ""]], 3)
      == Some(Win(CandidateLines(3)[4], "x"))
  {
    ScanFound([["", "x", "o"], ["", "x", ""], ["o", "x", ""]], 3, 4, "x");
  }

  /** "__x_ox_ox": x fills the right column. */
  lemma RightColumnWin()
    ensures FindWinningLine([["", "", "x"], ["", "o", "x"], ["", "o", "x"]], 3)
      == Some(Win([Coord(0, 2), Coord(1, 2), Coord(2, 2)], "x"))
  {
    ScanFound([["", "", "x"], ["", "o", "x"], ["", "o", "x"]], 3, 5, "x");
    Lines3();
  }

  /** "xo__xo__x": x fills the main diagonal. */
  lemma DiagonalWin()
    ensures FindWinningLine([["x", "o", ""], ["", "x", "o"], ["", "", "x"]], 3)
      == Some(Win([Coord(0, 0), Coord(1, 1), Coord(2, 2)], "x"))
  {
    ScanFound([["x", "o", ""], ["", "x", "o"], ["", "", "x"]], 3, 6, "x");
    Lines3();
  }

  /** "x_o_o_o_x": o fills the anti-diagonal. */
  lemma AntiDiagonalWin()
    ensures FindWinningLine([["x", "", "o"], ["", "o", ""], ["o", "", "x"]], 3)
      == Some(Win([Coord(0, 2), Coord(1, 1), Coord(2, 0)], "o"))
  {
    ScanFound([["x", "", "o"], ["", "o", ""], ["o", "", "x"]], 3, 7, "o");
    Lines3();
  }

  /** "o_x_x_x_o": x fills the anti-diagonal. */
  lemma AntiDiagonalWinX()
    ensures FindWinningLine([["o", "", "x"], ["", "x", ""], ["x", "", "o"]], 3)
      == Some(Win(CandidateLines(3)[7], "x"))
  {
    ScanFound([["o", "", "x"], ["", "x", ""], ["x", "", "o"]], 3, 7, "x");
  }

  /** "xoxoxox__", the last-move example: x fills the anti-diagonal. */
  lemma LastMoveBoardWin()
    ensures FindWinningLine([["x", "o", "x"], ["o", "x", "o"], ["x", "", ""]], 3)
      == Some(Win(CandidateLines(3)[7], "x"))
  {
    ScanFound([["x", "o", "x"], ["o", "x", "o"], ["x", "", ""]], 3, 7, "x");
  }

  /** "xoxxxooxo": a full board on which no line is filled. */
  lemma DrawnBoard()
    ensures FindWinningLine([["x", "o", "x"], ["x", "x", "o"], ["o", "x", "o"]], 3) == None
  {
    ScanFoundNothing([["x", "o", "x"], ["x", "x", "o"], ["o", "x", "o"]], 3);
  }

  /** "xo_______": two pieces placed, no line filled. */
  lemma OpeningBoard()
    ensures FindWinningLine([["x", "o", ""], ["", "", ""], ["", "", ""]], 3) == None
  {
    ScanFoundNothing([["x", "o", ""], ["", "", ""], ["", "", ""]], 3);
  }

  /** "xooo_x____x____x": on a 4 x 4 board x fills the main diagonal. */
  lemma LargeDiagonalWin()
    ensures FindWinningLine([["x", "o", "o", "o"], ["", "x", "", ""], ["", "", "x", ""], ["", "", "", "x"]], 4)
      == Some(Win(CandidateLines(4)[8], "x"))
  {
    ScanFound([["x", "o", "o", "o"], ["", "x", "", ""], ["", "", "x", ""], ["", "", "", "x"]], 4, 8, "x");
  }

  /** "ooox__x__x__x___": on a 4 x 4 board x fills the anti-diagonal. */
  lemma LargeAntiDiagonalWin()
    ensures FindWinningLine([["o", "o", "o", "x"], ["", "", "x", ""], ["", "x", "", ""], ["x", "", "", ""]], 4)
      == Some(Win(CandidateLines(4)[9], "x"))
  {
    ScanFound([["o", "o", "o", "x"], ["", "", "x", ""], ["", "x", "", ""], ["x", "", "", ""]], 4, 9, "x");
  }

  /** "ooo_____xxxx____": on a 4 x 4 board x fills the third row. */
  lemma LargeRowWin()
    ensures FindWinningLine([["o", "o", "o", ""], ["", "", "", ""], ["x", "x", "x", "x"], ["", "", "", ""]], 4)
      == Some(Win(CandidateLines(4)[2], "x"))
  {
    ScanFound([["o", "o", "o", ""], ["", "", "", ""], ["x", "x", "x", "x"], ["", "", "", ""]], 4, 2, "x");
  }

  /** "_xooox___x___x__": on a 4 x 4 board x fills the second column. */
  lemma LargeColumnWin()
    ensures FindWinningLine([["", "x", "o", "o"], ["o", "x", "", ""], ["", "x", "", ""], ["", "x", "", ""]], 4)
      == Some(Win(CandidateLines(4)[5], "x"))
  {
    ScanFound([["", "x", "o", "o"], ["o", "x", "", ""], ["", "x", "", ""], ["", "x", "", ""]], 4, 5, "x");
  }
}
