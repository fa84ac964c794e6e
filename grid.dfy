/** Cell storage of an N x N tic-tac-toe board, as plain values: pieces,
    coordinates, the rows of cells, writing one cell, and the row-major
    enumeration of the blank cells (the available moves). */
module Grid {

  /** A piece is the token a player writes into a cell; the empty string is
      the blank that marks a cell nobody has played. */
  type Piece = string

  const Blank: Piece := ""

  /** A cell address [row, col]. */
  datatype Coord = Coord(row: nat, col: nat)

  /** The cells of a board, row by row. */
  type Cells = seq<seq<Piece>>

  datatype Option<T> = None | Some(value: T)

  /** `g` has `n` rows of `n` cells each. */
  ghost predicate Square(g: Cells, n: nat) {
    |g| == n && forall r :: 0 <= r < n ==> |g[r]| == n
  }

  predicate InRange(c: Coord, n: nat) {
    c.row < n && c.col < n
  }

  predicate HasCell(g: Cells, c: Coord) {
    c.row < |g| && c.col < |g[c.row]|
  }

  function At(g: Cells, c: Coord): Piece
    requires HasCell(g, c)
  {
    g[c.row][c.col]
  }

  predicate IsBlankAt(g: Cells, c: Coord) {
    HasCell(g, c) && At(g, c) == Blank
  }

  /** `c` is the one blank cell of the board. */
  ghost predicate OnlyBlankAt(g: Cells, c: Coord) {
    IsBlankAt(g, c) && forall d :: IsBlankAt(g, d) ==> d == c
  }

  /** No cell of the board holds a piece. */
  ghost predicate AllBlank(g: Cells, n: nat) {
    forall c :: InRange(c, n) ==> IsBlankAt(g, c)
  }

  /** Every cell of the board holds a piece. */
  ghost predicate Full(g: Cells, n: nat) {
    forall c :: InRange(c, n) ==> !IsBlankAt(g, c)
  }

  /** The cells of a new board: every cell blank. */
  function BlankCells(n: nat): (g: Cells)
    ensures Square(g, n)
    ensures AllBlank(g, n)
  {
    seq(n, _ => seq(n, _ => Blank))
  }

  /** Writes `p` into cell `c`; every other cell keeps its piece. */
  function Place(g: Cells, c: Coord, p: Piece): (g': Cells)
    requires HasCell(g, c)
    ensures |g'| == |g| && forall r :: 0 <= r < |g| ==> |g'[r]| == |g[r]|
    ensures At(g', c) == p
    ensures forall d :: HasCell(g, d) && d != c ==> At(g', d) == At(g, d)
  {
    g[c.row := g[c.row][c.col := p]]
  }

  /** Row-major order: `a` comes strictly before `b`. */
  predicate Before(a: Coord, b: Coord) {
    a.row < b.row || (a.row == b.row && a.col < b.col)
  }

  /** Strictly increasing in row-major order (so also free of duplicates). */
  ghost predicate Increasing(s: seq<Coord>) {
    forall i, j :: 0 <= i < j < |s| ==> Before(s[i], s[j])
  }

  /** The blank cells of one row (row index `r`), left to right. */
  function RowBlanks(row: seq<Piece>, r: nat): (s: seq<Coord>)
    ensures forall c :: c in s <==> c.row == r && c.col < |row| && row[c.col] == Blank
    ensures Increasing(s)
  {
    if row == [] then []
    else
      var last := |row| - 1;
      var front := RowBlanks(row[..last], r);
      assert forall c :: c in front ==> c.col < last;
      front + (if row[last] == Blank then [Coord(r, last)] else [])
  }

  /** The available moves: every blank cell, in row-major order. */
  function Available(g: Cells): (s: seq<Coord>)
    ensures forall c :: c in s <==> IsBlankAt(g, c)
    ensures Increasing(s)
  {
    if g == [] then []
    else
      var last := |g| - 1;
      var front := Available(g[..last]);
      var tail := RowBlanks(g[last], last);
      IncreasingAppend(front, tail, last);
      front + tail
  }

  /** Cells of earlier rows, then cells of row `r`, each part increasing,
      make one increasing sequence. */
  lemma IncreasingAppend(s: seq<Coord>, t: seq<Coord>, r: nat)
    requires Increasing(s) && Increasing(t)
    requires forall a :: a in s ==> a.row < r
    requires forall b :: b in t ==> b.row == r
    ensures Increasing(s + t)
  {
    forall i, j | 0 <= i < j < |s + t|
      ensures Before((s + t)[i], (s + t)[j])
    {
      if j >= |s| && i < |s| {
        assert s[i] in s && t[j - |s|] in t;
      }
    }
  }

  /** Scanning one more cell of a row appends it when it is blank. */
  lemma RowBlanksExtend(row: seq<Piece>, r: nat, c: nat)
    requires c < |row|
    ensures RowBlanks(row[..c + 1], r) ==
      RowBlanks(row[..c], r) + (if row[c] == Blank then [Coord(r, c)] else [])
  {
    assert row[..c + 1][..c] == row[..c];
  }

  /** Scanning one more row appends that row's blank cells. */
  lemma AvailableExtend(g: Cells, r: nat)
    requires r < |g|
    ensures Available(g[..r + 1]) == Available(g[..r]) + RowBlanks(g[r], r)
  {
    assert g[..r + 1][..r] == g[..r];
  }

  /** `s` with every occurrence of `c` dropped, the rest in its order. */
  function Without(s: seq<Coord>, c: Coord): (r: seq<Coord>)
    ensures forall d :: d in r <==> d in s && d != c
    ensures Increasing(s) ==> Increasing(r) && |r| == if c in s then |s| - 1 else |s|
  {
    if s == [] then []
    else
      var rest := Without(s[1..], c);
      assert Increasing(s) ==> forall d :: d in s[1..] ==> Before(s[0], d);
      (if s[0] == c then [] else [s[0]]) + rest
  }

  /** Removing the first element of an increasing sequence leaves its tail. */
  lemma WithoutHead(s: seq<Coord>)
    requires Increasing(s) && s != []
    ensures Without(s, s[0]) == s[1..]
  {
    assert forall i :: 0 <= i < |s[1..]| ==> s[1..][i] == s[i + 1] && Before(s[0], s[i + 1]);
    WithoutAbsent(s[1..], s[0]);
  }

  /** Removing a coordinate that is not listed changes nothing. */
  lemma {:induction false} WithoutAbsent(s: seq<Coord>, c: Coord)
    requires c !in s
    ensures Without(s, c) == s
  {
    if s != [] {
      WithoutAbsent(s[1..], c);
    }
  }

  /** Two row-major increasing sequences with the same elements are equal:
      an increasing enumeration of a set of cells is unique. */
  lemma {:induction false} IncreasingUnique(s: seq<Coord>, t: seq<Coord>)
    requires Increasing(s) && Increasing(t)
    requires forall c :: c in s <==> c in t
    ensures s == t
  {
    assert |s| == 0 || s[0] in s;
    assert |t| == 0 || t[0] in t;
    if s != [] && t != [] {
      var i :| 0 <= i < |t| && t[i] == s[0];
      var j :| 0 <= j < |s| && s[j] == t[0];
      assert s[0] == t[0];
      forall c
        ensures c in s[1..] <==> c in t[1..]
      {
        if c in s[1..] {
          var m :| 1 <= m < |s| && s[m] == c;
          assert Before(s[0], c) && c in t;
          var m' :| 0 <= m' < |t| && t[m'] == c;
          assert t[1..][m' - 1] == c;
        }
        if c in t[1..] {
          var m :| 1 <= m < |t| && t[m] == c;
          assert Before(t[0], c) && c in s;
          var m' :| 0 <= m' < |s| && s[m'] == c;
          assert s[1..][m' - 1] == c;
        }
      }
      IncreasingUnique(s[1..], t[1..]);
      assert s == [s[0]] + s[1..] && t == [t[0]] + t[1..];
    }
  }

  /** Placing a non-blank piece at `c` removes exactly `c` from the available
      moves and keeps the others in their order; placing on a cell that was
      blank shortens the list by exactly one. */
  lemma AvailableAfterPlace(g: Cells, c: Coord, p: Piece)
    requires HasCell(g, c) && p != Blank
    ensures Available(Place(g, c, p)) == Without(Available(g), c)
    ensures c !in Available(Place(g, c, p))
    ensures |Available(Place(g, c, p))| == if IsBlankAt(g, c) then |Available(g)| - 1 else |Available(g)|
  {
    var g' := Place(g, c, p);
    forall d
      ensures d in Available(g') <==> d in Without(Available(g), c)
    {
      if d != c && HasCell(g, d) {
        assert At(g', d) == At(g, d);
      }
    }
    IncreasingUnique(Available(g'), Without(Available(g), c));
  }

  /** The blank cells of a row that is entirely blank: every column, in order. */
  lemma RowBlanksAllBlank(row: seq<Piece>, r: nat)
    requires forall k :: 0 <= k < |row| ==> row[k] == Blank
    ensures RowBlanks(row, r) == RowCoords(|row|, r)
  {
    var t := RowCoords(|row|, r);
    forall c
      ensures c in RowBlanks(row, r) <==> c in t
    {
      if c.row == r && c.col < |row| {
        assert t[c.col] == c;
      }
    }
    IncreasingUnique(RowBlanks(row, r), t);
  }

  /** The cells of row `r` of a size-n board, left to right. */
  function RowCoords(n: nat, r: nat): (s: seq<Coord>)
    ensures |s| == n
  {
    seq(n, c requires 0 <= c < n => Coord(r, c))
  }

  /** Every cell of the first `k` rows of a size-n board, listed row by row,
      each row left to right. */
  function RowMajor(n: nat, k: nat): (s: seq<Coord>)
    ensures |s| == k * n
  {
    if k == 0 then []
    else
      var front := RowMajor(n, k - 1);
      assert k * n == (k - 1) * n + n;
      front + RowCoords(n, k - 1)
  }

  /** The first `k` rows of a new board offer every one of their cells, in
      row-major order. */
  lemma {:induction false} AvailableOfBlankRows(n: nat, k: nat)
    requires k <= n
    ensures Available(BlankCells(n)[..k]) == RowMajor(n, k)
  {
    if k > 0 {
      var g := BlankCells(n);
      AvailableOfBlankRows(n, k - 1);
      assert g[..k][..k - 1] == g[..k - 1];
      RowBlanksAllBlank(g[k - 1], k - 1);
    }
  }

  /** A new size-n board offers n * n moves: every cell, listed row by row,
      left to right. */
  lemma AvailableOfBlankCells(n: nat)
    ensures Available(BlankCells(n)) == RowMajor(n, n)
    ensures |Available(BlankCells(n))| == n * n
  {
    AvailableOfBlankRows(n, n);
    assert BlankCells(n)[..n] == BlankCells(n);
  }

  /** A row offers at most one move per cell, and one per cell only when the
      whole row is blank. */
  lemma {:induction false} RowBlanksCount(row: seq<Piece>, r: nat)
    ensures |RowBlanks(row, r)| <= |row|
    ensures |RowBlanks(row, r)| == |row| ==> forall k :: 0 <= k < |row| ==> row[k] == Blank
  {
    if row != [] {
      var last := |row| - 1;
      var front := row[..last];
      RowBlanksCount(front, r);
      RowBlanksExtend(row, r, last);
      assert row[..last + 1] == row;
      if |RowBlanks(row, r)| == |row| {
        assert row[last] == Blank;
        forall k | 0 <= k < last
          ensures row[k] == Blank
        {
          assert front[k] == row[k];
        }
      }
    }
  }

  /** The first `k` rows of a square board offer at most `k * n` moves, and
      that many only when those rows are entirely blank. */
  lemma {:induction false} AvailableCountRows(g: Cells, n: nat, k: nat)
    requires Square(g, n) && k <= n
    ensures |Available(g[..k])| <= k * n
    ensures |Available(g[..k])| == k * n ==> forall c: Coord :: c.row < k && c.col < n ==> IsBlankAt(g, c)
  {
    if k > 0 {
      var front := g[..k - 1];
      AvailableCountRows(g, n, k - 1);
      assert g[..k][..k - 1] == front;
      RowBlanksCount(g[k - 1], k - 1);
      assert |Available(g[..k])| == |Available(front)| + |RowBlanks(g[k - 1], k - 1)|;
      assert k * n == (k - 1) * n + n;
    }
  }

  /** A square board offers n * n moves exactly when every cell is blank. */
  lemma AvailableCount(g: Cells, n: nat)
    requires Square(g, n)
    ensures |Available(g)| <= n * n
    ensures |Available(g)| == n * n <==> AllBlank(g, n)
  {
    AvailableCountRows(g, n, n);
    assert g[..n] == g;
    if AllBlank(g, n) {
      forall r | 0 <= r < n
        ensures g[r] == BlankCells(n)[r]
      {
        forall j | 0 <= j < n
          ensures g[r][j] == Blank
        {
          assert IsBlankAt(g, Coord(r, j));
        }
      }
      assert g == BlankCells(n);
      AvailableOfBlankCells(n);
    }
  }

  /** No move is available exactly when the board is full. */
  lemma AvailableEmpty(g: Cells, n: nat)
    requires Square(g, n)
    ensures Available(g) == [] <==> Full(g, n)
  {
    if Available(g) != [] {
      assert Available(g)[0] in Available(g);
    }
  }

  /** Exactly one move is available precisely when exactly one cell is blank. */
  lemma AvailableSingle(g: Cells)
    ensures |Available(g)| == 1 <==> exists c :: OnlyBlankAt(g, c)
  {
    var s := Available(g);
    if |s| == 1 {
      assert s[0] in s;
      forall d | IsBlankAt(g, d)
        ensures d == s[0]
      {
        assert d in s;
      }
      assert OnlyBlankAt(g, s[0]);
    }
    if exists c :: OnlyBlankAt(g, c) {
      var c :| OnlyBlankAt(g, c);
      assert c in s;
      SingleValued(s, c);
    }
  }

  /** An increasing sequence whose every element is `c` has at most one element. */
  lemma SingleValued(s: seq<Coord>, c: Coord)
    requires Increasing(s)
    requires forall d :: d in s ==> d == c
    ensures |s| <= 1
  {
    assert |s| >= 2 ==> s[0] in s && s[1] in s && Before(s[0], s[1]);
  }
}
