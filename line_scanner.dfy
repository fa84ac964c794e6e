/** Win detection for an N x N board of any size N >= 1: the candidate lines
    (every row, every column, both diagonals), the owner of a line, and the
    first owned line in candidate order. The win condition is N in a row,
    never a fixed three. */
module LineScanner {
  import opened Grid

  /** Column `c`, top to bottom. */
  function ColumnCoords(n: nat, c: nat): (s: seq<Coord>)
    ensures |s| == n
  {
    seq(n, r requires 0 <= r < n => Coord(r, c))
  }

  /** The main diagonal, from [0, 0] down to [n-1, n-1]. */
  function MainDiagonal(n: nat): (s: seq<Coord>)
    ensures |s| == n
  {
    seq(n, k requires 0 <= k < n => Coord(k, k))
  }

  /** The anti-diagonal, from [0, n-1] down to [n-1, 0]. */
  function AntiDiagonal(n: nat): (s: seq<Coord>)
    ensures |s| == n
  {
    seq(n, k requires 0 <= k < n => Coord(k, n - 1 - k))
  }

  /** Every line is a sequence of `n` cells of the board. */
  ghost predicate LineOnBoard(line: seq<Coord>, n: nat) {
    |line| == n && forall k :: 0 <= k < |line| ==> InRange(line[k], n)
  }

  /** The 2n + 2 candidate lines, in scan order: the rows top to bottom, the
      columns left to right, the main diagonal, the anti-diagonal. */
  function CandidateLines(n: nat): (lines: seq<seq<Coord>>)
    ensures |lines| == 2 * n + 2
    ensures forall i :: 0 <= i < |lines| ==> LineOnBoard(lines[i], n)
    ensures forall i, k :: 0 <= i < 2 * n + 2 && 0 <= k < n ==> k < |lines[i]| && lines[i][k] == LineCell(n, i, k)
  {
    seq(n, r requires 0 <= r < n => RowCoords(n, r))
      + seq(n, c requires 0 <= c < n => ColumnCoords(n, c))
      + [MainDiagonal(n), AntiDiagonal(n)]
  }

  /** Cell `k` of candidate line `i`, computed without building the lines. */
  function LineCell(n: nat, i: nat, k: nat): Coord
    requires i < 2 * n + 2 && k < n
  {
    if i < n then Coord(i, k)
    else if i < 2 * n then Coord(k, i - n)
    else if i == 2 * n then Coord(k, k)
    else Coord(k, n - 1 - k)
  }

  lemma CandidateCell(n: nat, i: nat, k: nat)
    requires i < 2 * n + 2 && k < n
    ensures CandidateLines(n)[i][k] == LineCell(n, i, k)
  {
  }

  /** Every cell of `line` holds the non-blank piece `p`. */
  ghost predicate OwnedBy(g: Cells, line: seq<Coord>, p: Piece) {
    p != Blank && |line| > 0 &&
    forall k :: 0 <= k < |line| ==> HasCell(g, line[k]) && At(g, line[k]) == p
  }

  /** The piece that fills the whole line, if one non-blank piece does. */
  function LineOwner(g: Cells, n: nat, line: seq<Coord>): (o: Option<Piece>)
    requires Square(g, n) && LineOnBoard(line, n)
    ensures forall p :: o == Some(p) <==> OwnedBy(g, line, p)
    ensures o.None? <==> forall p :: !OwnedBy(g, line, p)
  {
    if line == [] then None
    else
      var p := At(g, line[0]);
      if p != Blank && forall k :: 0 <= k < |line| ==> At(g, line[k]) == p then Some(p) else None
  }

  /** Candidate line `i` is owned, and no earlier candidate line is. */
  ghost predicate FirstOwnedAt(g: Cells, n: nat, i: nat)
    requires Square(g, n)
  {
    var lines := CandidateLines(n);
    i < |lines| && LineOwner(g, n, lines[i]).Some? &&
    forall m :: 0 <= m < i ==> !LineOwner(g, n, lines[m]).Some?
  }

  /** Some candidate line is owned. */
  ghost predicate SomeLineOwned(g: Cells, n: nat)
    requires Square(g, n)
  {
    var lines := CandidateLines(n);
    exists i :: 0 <= i < |lines| && LineOwner(g, n, lines[i]).Some?
  }

  /** Scans `lines` from index `i` on; the index of the first owned one. */
  function FirstOwned(g: Cells, n: nat, lines: seq<seq<Coord>>, i: nat): (k: Option<nat>)
    requires Square(g, n) && i <= |lines|
    requires forall j :: 0 <= j < |lines| ==> LineOnBoard(lines[j], n)
    decreases |lines| - i
    ensures k.None? ==> forall j :: i <= j < |lines| ==> !LineOwner(g, n, lines[j]).Some?
    ensures k.Some? ==>
      && i <= k.value < |lines|
      && LineOwner(g, n, lines[k.value]).Some?
      && forall m :: i <= m < k.value ==> !LineOwner(g, n, lines[m]).Some?
  {
    if i == |lines| then None
    else if LineOwner(g, n, lines[i]).Some? then Some(i)
    else FirstOwned(g, n, lines, i + 1)
  }

  /** A won line and the piece that owns it. */
  datatype Win = Win(line: seq<Coord>, owner: Piece)

  /** The first candidate line, in scan order, that one piece fills. */
  function FindWinningLine(g: Cells, n: nat): (w: Option<Win>)
    requires Square(g, n)
    ensures w.None? <==> !SomeLineOwned(g, n)
    ensures forall i: nat :: FirstOwnedAt(g, n, i) ==>
      w == Some(Win(CandidateLines(n)[i], LineOwner(g, n, CandidateLines(n)[i]).value))
    ensures w.Some? ==> w.value.line in CandidateLines(n) && OwnedBy(g, w.value.line, w.value.owner)
  {
    var lines := CandidateLines(n);
    match FirstOwned(g, n, lines, 0)
    case None => None
    case Some(i) =>
      assert FirstOwnedAt(g, n, i);
      assert forall j :: FirstOwnedAt(g, n, j) ==> j == i;
      Some(Win(lines[i], LineOwner(g, n, lines[i]).value))
  }

  /** Cells `k` to `n - 1` of candidate line `i` all hold `p`: the line
      checked cell by cell, without a quantifier, so that it can be
      evaluated on a concrete board. */
  function LineFilledFrom(g: Cells, n: nat, i: nat, p: Piece, k: nat): bool
    requires Square(g, n) && i < 2 * n + 2 && k <= n
    decreases n - k
  {
    k == n || (At(g, LineCell(n, i, k)) == p && LineFilledFrom(g, n, i, p, k + 1))
  }

  /** The owner of candidate line `i`, read off its first cell. This and
      `ScanFrom` repeat `LineOwner` and `FirstOwned` without quantifiers so
      that Dafny can evaluate them on a literal board; `ScanAgrees` proves
      the two forms equal. */
  function ScanOwner(g: Cells, n: nat, i: nat): Option<Piece>
    requires Square(g, n) && i < 2 * n + 2
  {
    if n == 0 then None
    else
      var p := At(g, LineCell(n, i, 0));
      if p != Blank && LineFilledFrom(g, n, i, p, 0) then Some(p) else None
  }

  /** The index of the first candidate line from `i` on that `ScanOwner`
      reports owned. */
  function ScanFrom(g: Cells, n: nat, i: nat): (k: Option<nat>)
    requires Square(g, n) && i <= 2 * n + 2
    decreases 2 * n + 2 - i
    ensures k.Some? ==> i <= k.value < 2 * n + 2 && ScanOwner(g, n, k.value).Some?
  {
    if i == 2 * n + 2 then None
    else if ScanOwner(g, n, i).Some? then Some(i)
    else ScanFrom(g, n, i + 1)
  }

  lemma {:induction false} LineFilledFromMeans(g: Cells, n: nat, i: nat, p: Piece, k: nat)
    requires Square(g, n) && i < 2 * n + 2 && k <= n
    decreases n - k
    ensures LineFilledFrom(g, n, i, p, k) <==>
      forall j :: k <= j < n ==> At(g, CandidateLines(n)[i][j]) == p
  {
    if k < n {
      LineFilledFromMeans(g, n, i, p, k + 1);
      CandidateCell(n, i, k);
    }
  }

  /** The cell-by-cell owner agrees with `LineOwner` on every candidate line. */
  lemma ScanOwnerAgrees(g: Cells, n: nat, i: nat)
    requires Square(g, n) && i < 2 * n + 2
    ensures ScanOwner(g, n, i) == LineOwner(g, n, CandidateLines(n)[i])
  {
    if n > 0 {
      LineFilledFromMeans(g, n, i, At(g, LineCell(n, i, 0)), 0);
      CandidateCell(n, i, 0);
    }
  }

  lemma {:induction false} ScanFromAgrees(g: Cells, n: nat, i: nat)
    requires Square(g, n) && i <= 2 * n + 2
    decreases 2 * n + 2 - i
    ensures ScanFrom(g, n, i) == FirstOwned(g, n, CandidateLines(n), i)
  {
    if i < 2 * n + 2 {
      ScanOwnerAgrees(g, n, i);
      ScanFromAgrees(g, n, i + 1);
    }
  }

  /** The cell-by-cell scan reports the same winning line, with the same
      owner, as `FindWinningLine`. */
  lemma ScanAgrees(g: Cells, n: nat)
    requires Square(g, n)
    ensures FindWinningLine(g, n) ==
      match ScanFrom(g, n, 0)
      case None => None
      case Some(i) => Some(Win(CandidateLines(n)[i], ScanOwner(g, n, i).value))
  {
    ScanFromAgrees(g, n, 0);
    var k := ScanFrom(g, n, 0);
    if k.Some? {
      ScanOwnerAgrees(g, n, k.value);
    }
  }

  /** When the cell-by-cell scan stops at line `i` owned by `p`, so does
      `FindWinningLine`. */
  lemma ScanFound(g: Cells, n: nat, i: nat, p: Piece)
    requires Square(g, n) && ScanFrom(g, n, 0) == Some(i) && ScanOwner(g, n, i) == Some(p)
    ensures i < 2 * n + 2 && FindWinningLine(g, n) == Some(Win(CandidateLines(n)[i], p))
  {
    ScanAgrees(g, n);
  }

  /** When the cell-by-cell scan finds no owned line, neither does
      `FindWinningLine`. */
  lemma ScanFoundNothing(g: Cells, n: nat)
    requires Square(g, n) && ScanFrom(g, n, 0) == None
    ensures FindWinningLine(g, n) == None
  {
    ScanAgrees(g, n);
  }

  /** Some candidate line is owned exactly when a first owned one exists. */
  lemma FirstOwnedExists(g: Cells, n: nat)
    requires Square(g, n)
    ensures SomeLineOwned(g, n) <==> exists i: nat :: FirstOwnedAt(g, n, i)
  {
    var lines := CandidateLines(n);
    var k := FirstOwned(g, n, lines, 0);
    if k.Some? {
      assert FirstOwnedAt(g, n, k.value);
    }
  }

  /** If every owned candidate line belongs to `p`, and at least one does,
      the scan reports `p` as the owner of the winning line. */
  lemma WinnerIsSoleOwner(g: Cells, n: nat, i: nat, p: Piece)
    requires Square(g, n) && i < 2 * n + 2
    requires OwnedBy(g, CandidateLines(n)[i], p)
    requires forall j, q :: 0 <= j < 2 * n + 2 && OwnedBy(g, CandidateLines(n)[j], q) ==> q == p
    ensures FindWinningLine(g, n).Some? && FindWinningLine(g, n).value.owner == p
  {
    var lines := CandidateLines(n);
    assert LineOwner(g, n, lines[i]) == Some(p);
    var w := FindWinningLine(g, n);
    assert w.Some?;
    assert OwnedBy(g, w.value.line, w.value.owner);
    var j :| 0 <= j < |lines| && lines[j] == w.value.line;
    assert OwnedBy(g, lines[j], w.value.owner);
  }

  /** If exactly one candidate line (as a sequence of cells) is owned, the
      scan returns that line's cells in their order. */
  lemma WinningLineIsOnlyOwnedLine(g: Cells, n: nat, i: nat)
    requires Square(g, n) && i < 2 * n + 2
    requires LineOwner(g, n, CandidateLines(n)[i]).Some?
    requires forall j :: 0 <= j < 2 * n + 2 && LineOwner(g, n, CandidateLines(n)[j]).Some? ==>
      CandidateLines(n)[j] == CandidateLines(n)[i]
    ensures FindWinningLine(g, n) ==
      Some(Win(CandidateLines(n)[i], LineOwner(g, n, CandidateLines(n)[i]).value))
  {
    var lines := CandidateLines(n);
    assert SomeLineOwned(g, n);
    FirstOwnedExists(g, n);
    var k: nat :| FirstOwnedAt(g, n, k);
    assert lines[k] == lines[i];
  }
}
