# Tic-tac-toe board engine

This project models `Tictactoe::Board`, an N x N tic-tac-toe board written
in Ruby. It has four parts:

- **Grid.** The board holds a grid of pieces. A blank cell is the empty
  string. The board also knows the current player's piece and the opponent's.
- **Mutator.** `place_piece` writes a piece into one cell, in place, and
  returns the board itself. A blank piece leaves the board unchanged.
- **Queries.** `number_of_spaces`, `available_moves` (the blank cells in
  row-major order), `corner_spaces`, `blank?` and `last_move?`.
- **Win detection.** It works for any N. The candidate lines are every row
  (left to right), every column (top to bottom), the main diagonal from
  [0, 0] and the anti-diagonal from [0, N-1]. They are scanned in that
  order. The first line that a single non-blank piece fills is the
  `winning_line`. `winner`, `winner_exists?`, `won?`, `lost?`, `draw?` and
  `over?` are derived from it.
- **Hand-off.** `hand_off` returns a deep copy with the two pieces' roles
  swapped.

The implementation file `lib/tictactoe/board.rb` is not part of this model.
The behaviour modelled is the behaviour the board's test suite asserts,
`spec/unit/lib/tictactoe/board_spec.rb`. Every row below cites that suite.

Files:

- `grid.dfy` (module `Grid`). Pieces, coordinates and cells as values. It
  defines writing one cell (`Place`) and the row-major list of blank cells
  (`Available`). It also holds the lemmas that connect that list to the
  cells: membership, order, count, the effect of a placement, and a new
  board.
- `line_scanner.dfy` (module `LineScanner`). The candidate lines, the owner
  of a line, and the first owned line (`FindWinningLine`). It also holds a
  cell-by-cell scan free of quantifiers (`ScanFrom`), proved to agree with
  `FindWinningLine`. Dafny evaluates that scan on a concrete board.
- `board.dfy` (module `TicTacToe`). The `Board` class. Its cells are an
  `array2<Piece>` that `PlacePiece` updates in place. Its queries are
  functions that read the array. `HandOff` allocates a new board and a new
  array.
- `scenarios.dfy` (module `Scenarios`). Every example board of the suite
  built with the `test_board` fixture, with the winning line the scan
  reports for it, or none.
- `board_scenarios.dfy` (module `BoardScenarios`). The suite's examples are
  written against the `Board` class. `TestBoard` stands in for the suite's `test_board`
  fixture: it yields a fresh board holding exactly the given cells. Each
  example method ensures at least what the corresponding example expects;
  some ensure more (the 4 x 4 victories also ensure no draw and game over,
  and `PlaceTakesMove` also ensures eight moves remain).

## Model

| member | source | states |
|---|---|---|
| TicTacToe.Board.constructor | spec/unit/lib/tictactoe/board_spec.rb:8 | a new board has the given size and pieces, a fresh grid, and every cell blank |
| TicTacToe.Board.NumberOfSpaces | spec/unit/lib/tictactoe/board_spec.rb:10-12 | the number of spaces is the number of moves a new board of this size offers |
| TicTacToe.Board.PlacePiece | spec/unit/lib/tictactoe/board_spec.rb:14-22 | returns the same board; a non-blank piece is written into exactly that cell and every other cell keeps its piece; a blank piece changes nothing |
| TicTacToe.Board.AvailableMoves | spec/unit/lib/tictactoe/board_spec.rb:14-27 | the moves are the blank cells of the board, in row-major order (the row loop and the column loop are proved against `Available`) |
| TicTacToe.Board.RowMoves | spec/unit/lib/tictactoe/board_spec.rb:24-25 | the blank cells of one row, left to right |
| Grid.Available | spec/unit/lib/tictactoe/board_spec.rb:24-25 | a coordinate is listed exactly when that cell is blank, and the list is strictly increasing in row-major order |
| Grid.RowBlanks | spec/unit/lib/tictactoe/board_spec.rb:24-25 | a coordinate is listed exactly when it lies in the row and its cell is blank; the list is left to right |
| Grid.IncreasingUnique | spec/unit/lib/tictactoe/board_spec.rb:24-25 | two increasing lists with the same members are equal, so the row-major list of moves is determined by the set of blank cells |
| Grid.Place | spec/unit/lib/tictactoe/board_spec.rb:14-17 | the written cell holds the piece, every other cell keeps its piece, and the shape is unchanged |
| Grid.Without | spec/unit/lib/tictactoe/board_spec.rb:42-45 | drops exactly the given coordinate; for an increasing list the result stays increasing (so the others keep their order) and is one shorter when the coordinate was listed |
| Grid.WithoutHead | spec/unit/lib/tictactoe/board_spec.rb:42-45 | dropping the first coordinate of an increasing list leaves its tail |
| Grid.WithoutAbsent | spec/unit/lib/tictactoe/board_spec.rb:42-45 | dropping a coordinate that is not listed changes nothing |
| Grid.AvailableAfterPlace | spec/unit/lib/tictactoe/board_spec.rb:14-17 | placing a non-blank piece at C removes exactly C from the moves and keeps the others in order; the list shrinks by one when C was blank |
| Grid.BlankCells | spec/unit/lib/tictactoe/board_spec.rb:8 | a new board is N x N with every cell blank |
| Grid.AvailableOfBlankCells | spec/unit/lib/tictactoe/board_spec.rb:24-25 | a new size-N board offers N * N moves: every cell, row by row, left to right |
| Grid.AvailableOfBlankRows | spec/unit/lib/tictactoe/board_spec.rb:24-25 | the first k rows of a new board offer each of their cells, in row-major order |
| Grid.RowBlanksAllBlank | spec/unit/lib/tictactoe/board_spec.rb:24-25 | an all-blank row offers every one of its columns, in order |
| Grid.RowBlanksCount | spec/unit/lib/tictactoe/board_spec.rb:33-36 | a row offers at most one move per cell, and one per cell only when it is entirely blank |
| Grid.AvailableCountRows | spec/unit/lib/tictactoe/board_spec.rb:33-36 | the first k rows offer at most k * N moves, and that many only when all their cells are blank |
| Grid.AvailableCount | spec/unit/lib/tictactoe/board_spec.rb:24-36 | a square board offers N * N moves exactly when every cell is blank |
| Grid.AvailableEmpty | spec/unit/lib/tictactoe/board_spec.rb:87-92 | no move is left exactly when every cell holds a piece |
| Grid.AvailableSingle | spec/unit/lib/tictactoe/board_spec.rb:47-52 | exactly one move is left exactly when exactly one cell is blank |
| Grid.SingleValued | spec/unit/lib/tictactoe/board_spec.rb:47-52 | an increasing list whose every entry is the same coordinate has at most one entry |
| TicTacToe.Board.CornerSpaces | spec/unit/lib/tictactoe/board_spec.rb:29-31 | four corners in row-major order; a coordinate is listed exactly when it is a corner of the board |
| TicTacToe.Board.IsBlank | spec/unit/lib/tictactoe/board_spec.rb:24-27 | blank exactly when every cell of the board is blank |
| TicTacToe.Board.IsLastMove | spec/unit/lib/tictactoe/board_spec.rb:47-52 | true exactly when one cell, and only that one, is blank |
| TicTacToe.Board.WinningLine | spec/unit/lib/tictactoe/board_spec.rb:136-159 | nil exactly when no candidate line is owned; otherwise a candidate line that one piece fills, and it is the first owned line in scan order (rows, columns, main diagonal, anti-diagonal) |
| TicTacToe.Board.Winner | spec/unit/lib/tictactoe/board_spec.rb:161-164 | a winner exists exactly when a winning line does; the winner is non-blank, fills the winning line, and is the owner of the first owned line in scan order |
| TicTacToe.Board.WinnerExists | spec/unit/lib/tictactoe/board_spec.rb:87-97 | true exactly when some candidate line is owned |
| TicTacToe.Board.Won | spec/unit/lib/tictactoe/board_spec.rb:54-85 | true exactly when the piece fills the first owned candidate line |
| TicTacToe.Board.Lost | spec/unit/lib/tictactoe/board_spec.rb:72-78 | true exactly when another piece fills the first owned candidate line |
| TicTacToe.Board.Draw | spec/unit/lib/tictactoe/board_spec.rb:87-92 | a draw exactly when every cell holds a piece and no line is owned |
| TicTacToe.Board.Over | spec/unit/lib/tictactoe/board_spec.rb:54-92 | over exactly when the board is full or some line is owned |
| TicTacToe.Board.LineOwnerWins | spec/unit/lib/tictactoe/board_spec.rb:54-85 | if a piece fills a line and no other piece fills any line, that piece is the winner and has won, every other piece has lost, and the game is over without a draw |
| TicTacToe.Board.FullWithoutLineIsDraw | spec/unit/lib/tictactoe/board_spec.rb:87-92 | a full board with no owned line is a draw and over, with no winner, no winning line, and nobody won or lost |
| TicTacToe.Board.HandOff | spec/unit/lib/tictactoe/board_spec.rb:117-134 | a new board in new storage, with the same size and cells and with the player and opponent pieces swapped |
| LineScanner.CandidateLines | spec/unit/lib/tictactoe/board_spec.rb:141-159 | 2N + 2 candidate lines of N cells of the board each, in scan order; cell k of each is fixed: row i runs left to right, column c top to bottom, the main diagonal from [0, 0], the anti-diagonal from [0, N-1] |
| LineScanner.LineOwner | spec/unit/lib/tictactoe/board_spec.rb:54-85 | reports p exactly when non-blank p fills the whole line, and nothing exactly when no piece does |
| LineScanner.FirstOwned | spec/unit/lib/tictactoe/board_spec.rb:104-115 | the index of the first owned line from a given index on; nothing when no later line is owned |
| LineScanner.FindWinningLine | spec/unit/lib/tictactoe/board_spec.rb:136-164 | nothing exactly when no candidate line is owned; otherwise the first owned candidate line in scan order and its owner |
| LineScanner.FirstOwnedExists | spec/unit/lib/tictactoe/board_spec.rb:94-97 | some line is owned exactly when there is a first owned line |
| LineScanner.WinnerIsSoleOwner | spec/unit/lib/tictactoe/board_spec.rb:54-85 | when every owned line belongs to p, and one does, the winning line's owner is p |
| LineScanner.WinningLineIsOnlyOwnedLine | spec/unit/lib/tictactoe/board_spec.rb:141-159 | when only one candidate line is owned, the winning line is that line, in its order |
| LineScanner.ScanFrom | spec/unit/lib/tictactoe/board_spec.rb:104-115 | the cell-by-cell scan stops only at an owned line, at or after the start index |
| LineScanner.LineFilledFromMeans | spec/unit/lib/tictactoe/board_spec.rb:104-115 | the cell-by-cell check of a line holds exactly when every remaining cell of that candidate line holds the piece |
| LineScanner.ScanOwnerAgrees | spec/unit/lib/tictactoe/board_spec.rb:104-115 | the cell-by-cell owner of every candidate line equals `LineOwner` |
| LineScanner.ScanFromAgrees | spec/unit/lib/tictactoe/board_spec.rb:104-115 | the cell-by-cell scan finds the same first owned line as `FirstOwned` |
| LineScanner.ScanAgrees | spec/unit/lib/tictactoe/board_spec.rb:104-115 | the cell-by-cell scan reports the same winning line and owner as `FindWinningLine` |
| LineScanner.ScanFound | spec/unit/lib/tictactoe/board_spec.rb:104-115 | when the scan stops at line i owned by p, `FindWinningLine` returns line i with owner p |
| LineScanner.ScanFoundNothing | spec/unit/lib/tictactoe/board_spec.rb:136-139 | when the scan finds no owned line, neither does `FindWinningLine` |
| Scenarios.Lines3 | spec/unit/lib/tictactoe/board_spec.rb:141-159 | the eight candidate lines of a 3 x 3 board, written out in scan order |
| Scenarios.TopRowWin | spec/unit/lib/tictactoe/board_spec.rb:54-61 | on "xxxo_o___" x owns the top row, the first owned line |
| Scenarios.MiddleRowWin | spec/unit/lib/tictactoe/board_spec.rb:141-144 | on "o__xxx_o_" the winning line is [1,0], [1,1], [1,2], owned by x |
| Scenarios.BottomRowWin | spec/unit/lib/tictactoe/board_spec.rb:54-61 | on "o__o__xxx" x owns the bottom row, the first owned line |
| Scenarios.LeftColumnWin | spec/unit/lib/tictactoe/board_spec.rb:63-70 | on "x_oxo_x__" x owns the left column, the first owned line |
| Scenarios.MiddleColumnWin | spec/unit/lib/tictactoe/board_spec.rb:63-70 | on "_xo_x_ox_" x owns the middle column, the first owned line |
| Scenarios.RightColumnWin | spec/unit/lib/tictactoe/board_spec.rb:146-149 | on "__x_ox_ox" the winning line is [0,2], [1,2], [2,2], owned by x |
| Scenarios.DiagonalWin | spec/unit/lib/tictactoe/board_spec.rb:151-154 | on "xo__xo__x" the winning line is [0,0], [1,1], [2,2], owned by x |
| Scenarios.AntiDiagonalWin | spec/unit/lib/tictactoe/board_spec.rb:156-164 | on "x_o_o_o_x" the winning line is [0,2], [1,1], [2,0], owned by o |
| Scenarios.LastMoveBoardWin | spec/unit/lib/tictactoe/board_spec.rb:47-52 | on the last-move board "xoxoxox__" x owns the anti-diagonal |
| Scenarios.AntiDiagonalWinX | spec/unit/lib/tictactoe/board_spec.rb:94-97 | on "o_x_x_x_o" x owns the anti-diagonal |
| Scenarios.DrawnBoard | spec/unit/lib/tictactoe/board_spec.rb:87-92 | on "xoxxxooxo" no line is owned |
| Scenarios.OpeningBoard | spec/unit/lib/tictactoe/board_spec.rb:136-139 | on "xo_______" no line is owned |
| Scenarios.LargeDiagonalWin | spec/unit/lib/tictactoe/board_spec.rb:104-115 | on the 4 x 4 "xooo_x____x____x" x owns the main diagonal |
| Scenarios.LargeAntiDiagonalWin | spec/unit/lib/tictactoe/board_spec.rb:104-115 | on the 4 x 4 "ooox__x__x__x___" x owns the anti-diagonal |
| Scenarios.LargeRowWin | spec/unit/lib/tictactoe/board_spec.rb:104-115 | on the 4 x 4 "ooo_____xxxx____" x owns the third row |
| Scenarios.LargeColumnWin | spec/unit/lib/tictactoe/board_spec.rb:104-115 | on the 4 x 4 "_xooox___x___x__" x owns the second column |
| BoardScenarios.TestBoard | spec/unit/lib/tictactoe/board_spec.rb:48 | stands in for the suite's `test_board` fixture: yields a fresh board holding exactly the given cells and the given pieces |
| BoardScenarios.NewBoardQueries | spec/unit/lib/tictactoe/board_spec.rb:10-31 | a new 3 x 3 board has nine spaces, all nine moves in row-major order, is blank, and has corners [0,0], [0,2], [2,0], [2,2] |
| BoardScenarios.NewBoardMovesInOrder | spec/unit/lib/tictactoe/board_spec.rb:24-25 | the nine moves of a new 3 x 3 board, written out in row-major order |
| BoardScenarios.LargeBoardMoves | spec/unit/lib/tictactoe/board_spec.rb:99-102 | a new 4 x 4 board offers sixteen moves |
| BoardScenarios.PlaceTakesMove | spec/unit/lib/tictactoe/board_spec.rb:14-17 | after x is placed at [0,2], that move is gone, eight remain, and the board is no longer blank (also lines 33-36) |
| BoardScenarios.PlaceBlankKeepsMoves | spec/unit/lib/tictactoe/board_spec.rb:19-22 | placing a blank piece leaves all nine moves |
| BoardScenarios.PlaceHidesMove | spec/unit/lib/tictactoe/board_spec.rb:42-45 | after x is placed at [0,0], the moves are the other eight cells in row-major order |
| BoardScenarios.MovesAfterCornerTaken | spec/unit/lib/tictactoe/board_spec.rb:42-45 | on cells, taking [0,0] of a new board leaves the other eight moves in order |
| BoardScenarios.XoxoxoxBlanks | spec/unit/lib/tictactoe/board_spec.rb:47-52 | only [2,1] and [2,2] are blank on "xoxoxox__" |
| BoardScenarios.XoxoxoxLastMove | spec/unit/lib/tictactoe/board_spec.rb:47-52 | "xoxoxox__" does not have a single blank cell; after x takes [2,1] it does |
| BoardScenarios.LastMoveReported | spec/unit/lib/tictactoe/board_spec.rb:47-52 | on "xoxoxox__" `last_move?` is false, and after x takes [2,1] it is true |
| BoardScenarios.DrawnBoardFull | spec/unit/lib/tictactoe/board_spec.rb:87-92 | every cell of "xoxxxooxo" holds a piece |
| BoardScenarios.TopRowVictory | spec/unit/lib/tictactoe/board_spec.rb:54-61 | on "xxxo_o___" x has won, no draw, game over |
| BoardScenarios.MiddleRowVictory | spec/unit/lib/tictactoe/board_spec.rb:54-61 | on "o__xxx_o_" x has won, no draw, game over |
| BoardScenarios.BottomRowVictory | spec/unit/lib/tictactoe/board_spec.rb:54-61 | on "o__o__xxx" x has won, no draw, game over |
| BoardScenarios.LeftColumnVictory | spec/unit/lib/tictactoe/board_spec.rb:63-70 | on "x_oxo_x__" x has won, no draw, game over |
| BoardScenarios.MiddleColumnVictory | spec/unit/lib/tictactoe/board_spec.rb:63-70 | on "_xo_x_ox_" x has won, no draw, game over |
| BoardScenarios.RightColumnVictory | spec/unit/lib/tictactoe/board_spec.rb:63-70 | on "__x_ox_ox" x has won, no draw, game over |
| BoardScenarios.DiagonalVictory | spec/unit/lib/tictactoe/board_spec.rb:72-78 | on "xo__xo__x" x has won, o has lost, no draw, game over |
| BoardScenarios.AntiDiagonalVictory | spec/unit/lib/tictactoe/board_spec.rb:80-85 | on "x_o_o_o_x" o has won, no draw, game over |
| BoardScenarios.DrawReported | spec/unit/lib/tictactoe/board_spec.rb:87-92 | on "xoxxxooxo" no winner exists, it is a draw, and the game is over |
| BoardScenarios.WinnerReported | spec/unit/lib/tictactoe/board_spec.rb:94-97 | on "o_x_x_x_o" a winner exists |
| BoardScenarios.LargeDiagonalVictory | spec/unit/lib/tictactoe/board_spec.rb:104-115 | on the 4 x 4 "xooo_x____x____x" x has won, no draw, game over |
| BoardScenarios.LargeAntiDiagonalVictory | spec/unit/lib/tictactoe/board_spec.rb:104-115 | on the 4 x 4 "ooox__x__x__x___" x has won, no draw, game over |
| BoardScenarios.LargeRowVictory | spec/unit/lib/tictactoe/board_spec.rb:104-115 | on the 4 x 4 "ooo_____xxxx____" x has won, no draw, game over |
| BoardScenarios.LargeColumnVictory | spec/unit/lib/tictactoe/board_spec.rb:104-115 | on the 4 x 4 "_xooox___x___x__" x has won, no draw, game over |
| BoardScenarios.NoWinningLine | spec/unit/lib/tictactoe/board_spec.rb:136-139 | "xo_______" has no winning line |
| BoardScenarios.MiddleRowLine | spec/unit/lib/tictactoe/board_spec.rb:141-144 | the winning line of "o__xxx_o_" is [1,0], [1,1], [1,2] |
| BoardScenarios.RightColumnLine | spec/unit/lib/tictactoe/board_spec.rb:146-149 | the winning line of "__x_ox_ox" is [0,2], [1,2], [2,2] |
| BoardScenarios.DiagonalLine | spec/unit/lib/tictactoe/board_spec.rb:151-154 | the winning line of "xo__xo__x" is [0,0], [1,1], [2,2] |
| BoardScenarios.AntiDiagonalLine | spec/unit/lib/tictactoe/board_spec.rb:156-159 | the winning line of "x_o_o_o_x" is [0,2], [1,1], [2,0] |
| BoardScenarios.WinnerPiece | spec/unit/lib/tictactoe/board_spec.rb:161-164 | the winner of "x_o_o_o_x" is o |
| BoardScenarios.HandOffSwapsPieces | spec/unit/lib/tictactoe/board_spec.rb:117-124 | the player's piece is x before; after the hand-off the copy's player is o and its opponent x |
| BoardScenarios.PlacementsDiverge | spec/unit/lib/tictactoe/board_spec.rb:126-134 | taking two different blank cells of one board leaves two different lists of moves |
| BoardScenarios.HandOffsIndependent | spec/unit/lib/tictactoe/board_spec.rb:126-134 | two hand-offs of one board are independent: a piece placed on one copy does not appear on the other, and the two then offer different moves |
| BoardScenarios.HandOffCopiesDeeply | spec/unit/lib/tictactoe/board_spec.rb:126-134 | on "xo_______", x at [1,1] on one hand-off and at [2,2] on another leaves [1,1] blank on the second, and their moves differ |

## Left out

- `lib/tictactoe/board.rb` is not part of this model. The engine is modelled from the behaviour its test suite asserts. Where that suite leaves a choice open, the model makes the plainest one and says so below.
- The `test_board` fixture lives in the suite's helper file, which is not part of this model. `BoardScenarios.TestBoard` takes the cells as a grid rather than decoding a string such as "xo_______"; the strings appear in comments.
- The RSpec framework itself (`describe`, `let`, `should`) is not modelled. Each example becomes a method or lemma whose `ensures` is the example's expectations.
- TicTacToe.Board.PlacePiece: a coordinate outside the board is a precondition. The suite never places outside the board.
- TicTacToe.Board.PlacePiece: placing on an occupied cell overwrites it. The suite never does this, so the model adds no policy for it. Nothing enforces turn order either.
- Pieces are any strings. The constructor does not check that the two pieces differ or that neither is blank, because the suite never shows such a check.
- The Ruby board is an array of row arrays that `b.board[1][1]` indexes. Here it is an `array2<Piece>`, so rows cannot alias one another. `Board.Rows()` reads it as rows of pieces.
- `player_piece` and `opponent_piece` are immutable fields. The suite only reads them, and `hand_off` sets them on the new board.
- `be_an_instance_of Tictactoe::Board` (line 39) is modelled as the stronger "returns the board itself" (`self == this`).
- TicTacToe.Board.Won: if two pieces both fill lines, only the owner of the first line in scan order has won. The suite only shows boards with a single owning piece.
- TicTacToe.Board.Lost: "lost" means that another piece fills the first owned line. The suite's one example (line 75) cannot tell this apart from other readings.
- TicTacToe.Board.NumberOfSpaces is stated against a new board of the same size (N * N), not against the current board's blank cells. Line 11 asks it of a new board only.
