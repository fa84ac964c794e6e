/** The board facade: an N x N grid of pieces updated in place, the two
    players' pieces, the queries a game loop asks, and the hand-off that
    passes the turn to the other side on an independent copy. */
module TicTacToe {
  import opened Grid
  import opened LineScanner

  class Board {
    const size: nat
    /** The cells, row by row; `PlacePiece` writes into it in place. */
    const grid: array2<Piece>
    const playerPiece: Piece
    const opponentPiece: Piece

    ghost predicate Valid() {
      size >= 1 && grid.Length0 == size && grid.Length1 == size
    }

    /** The board's cells as rows of pieces. */
    function Rows(): (g: Cells)
      requires Valid()
      reads grid
      ensures Square(g, size)
      ensures forall r, c :: 0 <= r < size && 0 <= c < size ==> g[r][c] == grid[r, c]
    {
      seq(size, r requires 0 <= r < size reads grid =>
        seq(size, c requires 0 <= c < size reads grid => grid[r, c]))
    }

    /** A new board of `n` x `n` blank cells. */
    constructor (n: nat, player: Piece, opponent: Piece)
      requires n >= 1
      ensures Valid() && fresh(grid)
      ensures size == n && playerPiece == player && opponentPiece == opponent
      ensures Rows() == BlankCells(n)
    {
      size, playerPiece, opponentPiece := n, player, opponent;
      grid := new Piece[n, n]((_, _) => Blank);
      new;
      assert forall r :: 0 <= r < n ==> Rows()[r] == BlankCells(n)[r];
    }

    /** The number of cells: the number of moves a new board of this size offers. */
    function NumberOfSpaces(): (spaces: nat)
      requires Valid()
      ensures spaces == |Available(BlankCells(size))|
    {
      AvailableOfBlankCells(size);
      size * size
    }

    /** Writes a non-blank `piece` at `at` (whatever the cell held); a blank
        piece leaves the board as it is. Returns the board itself. */
    method PlacePiece(piece: Piece, at: Coord) returns (self: Board)
      requires Valid() && InRange(at, size)
      modifies grid
      ensures self == this
      ensures Rows() == if piece == Blank then old(Rows()) else Place(old(Rows()), at, piece)
      ensures forall r, c :: 0 <= r < size && 0 <= c < size ==>
        grid[r, c] == if r == at.row && c == at.col && piece != Blank then piece else old(grid[r, c])
    {
      if piece != Blank {
        grid[at.row, at.col] := piece;
        ghost var g := Place(old(Rows()), at, piece);
        assert forall r :: 0 <= r < size ==> Rows()[r] == g[r];
      }
      self := this;
    }

    /** The blank cells, in row-major order. */
    method AvailableMoves() returns (moves: seq<Coord>)
      requires Valid()
      ensures moves == Available(Rows())
    {
      ghost var g := Rows();
      moves := [];
      var r := 0;
      while r < size
        invariant 0 <= r <= size
        invariant moves == Available(g[..r])
      {
        var blanks := RowMoves(r);
        AvailableExtend(g, r);
        moves := moves + blanks;
        r := r + 1;
      }
      assert g[..size] == g;
    }

    /** The blank cells of row `r`, left to right. */
    method RowMoves(r: nat) returns (blanks: seq<Coord>)
      requires Valid() && r < size
      ensures blanks == RowBlanks(Rows()[r], r)
    {
      ghost var row := Rows()[r];
      blanks := [];
      var c := 0;
      while c < size
        invariant 0 <= c <= size
        invariant blanks == RowBlanks(row[..c], r)
      {
        RowBlanksExtend(row, r, c);
        if grid[r, c] == Blank {
          blanks := blanks + [Coord(r, c)];
        }
        c := c + 1;
      }
      assert row[..size] == row;
    }

    /** The four corners: top-left, top-right, bottom-left, bottom-right. */
    function CornerSpaces(): (corners: seq<Coord>)
      requires Valid()
      ensures |corners| == 4
      ensures forall i, j :: 0 <= i < j < 4 ==> !Before(corners[j], corners[i])
      ensures forall c :: c in corners <==>
        InRange(c, size) && (c.row == 0 || c.row == size - 1) && (c.col == 0 || c.col == size - 1)
    {
      [Coord(0, 0), Coord(0, size - 1), Coord(size - 1, 0), Coord(size - 1, size - 1)]
    }

    /** No piece has been placed: every move is still available. */
    function IsBlank(): (blank: bool)
      requires Valid()
      reads grid
      ensures blank <==> AllBlank(Rows(), size)
    {
      AvailableCount(Rows(), size);
      |Available(Rows())| == NumberOfSpaces()
    }

    /** Exactly one move is left. */
    function IsLastMove(): (last: bool)
      requires Valid()
      reads grid
      ensures last <==> exists c :: OnlyBlankAt(Rows(), c)
    {
      AvailableSingle(Rows());
      |Available(Rows())| == 1
    }

    /** The cells of the first owned candidate line, in line order, if any. */
    function WinningLine(): (line: Option<seq<Coord>>)
      requires Valid()
      reads grid
      ensures line.None? <==> !SomeLineOwned(Rows(), size)
      ensures line.Some? ==>
        line.value in CandidateLines(size) && exists p :: OwnedBy(Rows(), line.value, p)
      ensures forall i: nat :: FirstOwnedAt(Rows(), size, i) ==> line == Some(CandidateLines(size)[i])
    {
      match FindWinningLine(Rows(), size)
      case None => None
      case Some(w) => Some(w.line)
    }

    /** The piece that fills the winning line, if there is one. */
    function Winner(): (winner: Option<Piece>)
      requires Valid()
      reads grid
      ensures winner.Some? <==> WinningLine().Some?
      ensures winner.Some? ==> winner.value != Blank && OwnedBy(Rows(), WinningLine().value, winner.value)
      ensures forall i: nat :: FirstOwnedAt(Rows(), size, i) ==>
        winner == LineOwner(Rows(), size, CandidateLines(size)[i])
    {
      match FindWinningLine(Rows(), size)
      case None => None
      case Some(w) => Some(w.owner)
    }

    /** Some line is filled by one piece. */
    function WinnerExists(): (found: bool)
      requires Valid()
      reads grid
      ensures found <==> SomeLineOwned(Rows(), size)
    {
      Winner().Some?
    }

    /** `piece` owns the first filled line. */
    function Won(piece: Piece): (won: bool)
      requires Valid()
      reads grid
      ensures won <==> exists i: nat ::
        FirstOwnedAt(Rows(), size, i) && OwnedBy(Rows(), CandidateLines(size)[i], piece)
    {
      FirstOwnedExists(Rows(), size);
      Winner() == Some(piece)
    }

    /** Some other piece owns the first filled line. */
    function Lost(piece: Piece): (lost: bool)
      requires Valid()
      reads grid
      ensures lost <==> exists i: nat, q ::
        (q != piece && FirstOwnedAt(Rows(), size, i) && OwnedBy(Rows(), CandidateLines(size)[i], q))
    {
      FirstOwnedExists(Rows(), size);
      Winner().Some? && Winner().value != piece
    }

    /** No move is left and no line is filled. */
    function Draw(): (draw: bool)
      requires Valid()
      reads grid
      ensures draw <==> Full(Rows(), size) && !SomeLineOwned(Rows(), size)
    {
      AvailableEmpty(Rows(), size);
      |Available(Rows())| == 0 && !WinnerExists()
    }

    /** The game has ended, drawn or won. */
    function Over(): (over: bool)
      requires Valid()
      reads grid
      ensures over <==> Full(Rows(), size) || SomeLineOwned(Rows(), size)
    {
      Draw() || WinnerExists()
    }

    /** If one candidate line is filled by `piece` and no line by any other
        piece, `piece` has won, every other piece has lost, and the game is
        over without a draw. */
    lemma LineOwnerWins(i: nat, piece: Piece)
      requires Valid() && i < 2 * size + 2
      requires OwnedBy(Rows(), CandidateLines(size)[i], piece)
      requires forall j, q :: 0 <= j < 2 * size + 2 && OwnedBy(Rows(), CandidateLines(size)[j], q) ==> q == piece
      ensures Winner() == Some(piece) && Won(piece) && WinnerExists()
      ensures forall q :: q != piece ==> Lost(q)
      ensures !Draw() && Over()
    {
      WinnerIsSoleOwner(Rows(), size, i, piece);
    }

    /** A full board on which no line is filled is a draw: the game is over
        and nobody has won. */
    lemma FullWithoutLineIsDraw()
      requires Valid() && Full(Rows(), size) && !SomeLineOwned(Rows(), size)
      ensures Draw() && Over() && !WinnerExists() && Winner().None? && WinningLine().None?
      ensures forall p :: !Won(p) && !Lost(p)
    {
    }

    /** A copy of the board, in fresh storage, with the two pieces' roles
        swapped. */
    method HandOff() returns (b: Board)
      requires Valid()
      ensures fresh(b) && fresh(b.grid) && b.Valid()
      ensures b.size == size && b.playerPiece == opponentPiece && b.opponentPiece == playerPiece
      ensures b.Rows() == Rows()
      ensures forall r, c :: 0 <= r < size && 0 <= c < size ==> b.grid[r, c] == grid[r, c]
    {
      b := new Board(size, opponentPiece, playerPiece);
      var r := 0;
      while r < size
        invariant 0 <= r <= size
        invariant fresh(b) && fresh(b.grid) && b.Valid() && b.size == size
        invariant b.playerPiece == opponentPiece && b.opponentPiece == playerPiece
        invariant forall i, j :: 0 <= i < r && 0 <= j < size ==> b.grid[i, j] == grid[i, j]
      {
        var c := 0;
        while c < size
          invariant 0 <= c <= size
          invariant forall i, j :: 0 <= i < r && 0 <= j < size ==> b.grid[i, j] == grid[i, j]
          invariant forall j :: 0 <= j < c ==> b.grid[r, j] == grid[r, j]
        {
          b.grid[r, c] := grid[r, c];
          c := c + 1;
        }
        r := r + 1;
      }
      assert forall i :: 0 <= i < size ==> b.Rows()[i] == Rows()[i];
    }
  }
}
