/**
 * The drawn board: a square of characters built from its upper half by
 * mirroring, with '*' on the track, 'D' on the home lanes and 'X' at the
 * centre.
 */
module Board {
  import opened Common
  import opened Geometry
  import opened Track

  /** Python's `c * k`: `k` copies of `c`, nothing when `k` is not positive. */
  function Repeat(c: char, k: int): (r: string)
    ensures |r| == if k > 0 then k else 0
    ensures forall i :: 0 <= i < |r| ==> r[i] == c
    decreases k
  {
    if k <= 0 then [] else Repeat(c, k - 1) + [c]
  }

  /** `symmetry_row`: a row that reads `s`, then `c`, then `s` backwards. */
  function SymmetryRow(s: string, c: char): (r: string)
    ensures |r| == 2 * |s| + 1
    ensures forall i :: 0 <= i < |s| ==> r[i] == s[i]
    ensures r[|s|] == c
    ensures forall i :: 0 <= i < |r| ==> r[i] == r[|r| - 1 - i]
  {
    s + [c] + Reverse(s)
  }

  /** Distance of row or column `i` from the nearer edge, as seen from the centre line `half`. */
  function Fold(half: int, i: int): int {
    if i <= half then i else 2 * half - i
  }

  /**
   * The character at folded row `fr` and folded column `fc` of a board whose
   * centre line is `half`: the edge row, the arm rows, the row crossing the
   * arms, and the middle row.
   */
  function Glyph(half: int, fr: int, fc: int): char {
    if fr == 0 then (if fc < half - 1 then ' ' else '*')
    else if fr < half - 1 then (if fc < half - 1 then ' ' else if fc == half - 1 then '*' else 'D')
    else if fr == half - 1 then (if fc < half then '*' else 'D')
    else if fc == 0 then '*'
    else if fc < half then 'D'
    else 'X'
  }

  function FoldedRow(half: int, fr: int): string {
    if half < 0 then [] else seq(2 * half + 1, c => Glyph(half, fr, Fold(half, c)))
  }

  /** The board of size `n`, cell by cell. */
  function Template(n: int): seq<string> {
    var half := Medium(n);
    if n < 0 then [] else seq(n, r => FoldedRow(half, Fold(half, r)))
  }

  function TopRows(half: int, k: nat): seq<string> {
    seq(k, r => FoldedRow(half, r))
  }

  lemma EdgeRowShape(half: int)
    requires half >= 2
    ensures SymmetryRow(Repeat(' ', half - 1) + "*", '*') == FoldedRow(half, 0)
  {
    var s := Repeat(' ', half - 1) + "*";
    var row := SymmetryRow(s, '*');
    forall c | 0 <= c < 2 * half + 1
      ensures row[c] == FoldedRow(half, 0)[c]
    {
      if c > half {
        assert row[c] == row[2 * half - c];
      }
    }
  }

  lemma ArmRowShape(half: int, fr: int)
    requires half >= 2 && 0 < fr < half - 1
    ensures SymmetryRow(Repeat(' ', half - 1) + "*", 'D') == FoldedRow(half, fr)
  {
    var s := Repeat(' ', half - 1) + "*";
    var row := SymmetryRow(s, 'D');
    forall c | 0 <= c < 2 * half + 1
      ensures row[c] == FoldedRow(half, fr)[c]
    {
      if c > half {
        assert row[c] == row[2 * half - c];
      }
    }
  }

  lemma CrossRowShape(half: int)
    requires half >= 2
    ensures SymmetryRow(Repeat('*', half), 'D') == FoldedRow(half, half - 1)
  {
    var row := SymmetryRow(Repeat('*', half), 'D');
    forall c | 0 <= c < 2 * half + 1
      ensures row[c] == FoldedRow(half, half - 1)[c]
    {
      if c > half {
        assert row[c] == row[2 * half - c];
      }
    }
  }

  lemma MiddleRowShape(half: int)
    requires half >= 2
    ensures SymmetryRow("*" + Repeat('D', half - 1), 'X') == FoldedRow(half, half)
  {
    var s := "*" + Repeat('D', half - 1);
    var row := SymmetryRow(s, 'X');
    forall c | 0 <= c < 2 * half + 1
      ensures row[c] == FoldedRow(half, half)[c]
    {
      if c > half {
        assert row[c] == row[2 * half - c];
      }
    }
  }

  /** Mirroring the upper half below its last row gives the whole board. */
  lemma MirrorGivesTemplate(n: int)
    requires OddBoard(n)
    ensures TopRows(Medium(n), Medium(n) + 1) + Reverse(TopRows(Medium(n), Medium(n))) == Template(n)
  {
    MediumOfOddBoard(n);
    var half := Medium(n);
    var top := TopRows(half, half + 1);
    var whole := top + Reverse(TopRows(half, half));
    forall r | 0 <= r < n
      ensures whole[r] == Template(n)[r]
    {
      if r > half {
        assert whole[r] == TopRows(half, half)[half - 1 - (r - half - 1)];
      }
    }
  }

  /**
   * `set_matrix`: the edge row, `half - 2` arm rows, the row crossing the
   * arms and the middle row, followed by the rows above the middle in
   * reverse order.
   */
  method SetMatrix(fieldSize: int) returns (matrix: seq<string>)
    requires OddBoard(fieldSize)
    ensures matrix == Template(fieldSize)
  {
    MediumOfOddBoard(fieldSize);
    var half := TruncHalf(fieldSize - 1);
    EdgeRowShape(half);
    matrix := [SymmetryRow(Repeat(' ', half - 1) + "*", '*')];
    for i := 0 to half - 2
      invariant matrix == TopRows(half, i + 1)
    {
      ArmRowShape(half, i + 1);
      matrix := matrix + [SymmetryRow(Repeat(' ', half - 1) + "*", 'D')];
    }
    CrossRowShape(half);
    matrix := matrix + [SymmetryRow(Repeat('*', half), 'D')];
    MiddleRowShape(half);
    matrix := matrix + [SymmetryRow("*" + Repeat('D', half - 1), 'X')];
    assert matrix == TopRows(half, half + 1);
    assert matrix[..|matrix| - 1] == TopRows(half, half);
    MirrorGivesTemplate(fieldSize);
    matrix := matrix + Reverse(matrix[..|matrix| - 1]);
  }

  /** The board is square and symmetric about both centre lines and the centre. */
  lemma TemplateShape(n: int)
    requires OddBoard(n)
    ensures |Template(n)| == n
    ensures forall r :: 0 <= r < n ==> |Template(n)[r]| == n
    ensures forall r :: 0 <= r < n ==> Template(n)[r] == Template(n)[n - 1 - r]
    ensures forall r, c :: 0 <= r < n && 0 <= c < n ==> Template(n)[r][c] == Template(n)[r][n - 1 - c]
    ensures Template(n)[Medium(n)][Medium(n)] == 'X'
  {
    MediumOfOddBoard(n);
  }

  /** The character drawn at cell `p`, or a blank off the board. */
  function Drawn(n: int, p: Coord): char {
    if 0 <= p.0 < n && 0 <= p.1 < n && |Template(n)| == n && |Template(n)[p.0]| == n
    then Template(n)[p.0][p.1]
    else ' '
  }

  /** Inside the board, the drawn character is the glyph of the folded row and column. */
  lemma DrawnIsGlyph(n: int, p: Coord)
    requires OddBoard(n) && 0 <= p.0 < n && 0 <= p.1 < n
    ensures Drawn(n, p) == Glyph(Medium(n), Fold(Medium(n), p.0), Fold(Medium(n), p.1))
  {
    MediumOfOddBoard(n);
  }

  /** The rotation that swaps the sides leaves the drawing unchanged. */
  lemma DrawnRotated(n: int, p: Coord)
    requires OddBoard(n)
    ensures Drawn(n, Rotate(n, p)) == Drawn(n, p)
  {
    MediumOfOddBoard(n);
    if 0 <= p.0 < n && 0 <= p.1 < n {
      DrawnIsGlyph(n, p);
      DrawnIsGlyph(n, Rotate(n, p));
    }
  }

  /** Side A's path, drawn: '*' up to the home lane, 'D' along it, 'X' at the centre. */
  lemma TrackCellDrawn(n: int, k: int)
    requires OddBoard(n) && 0 <= k <= TrackLength(n)
    ensures Drawn(n, TrackCell(n, k))
         == if k < 8 * Medium(n) then '*' else if k < TrackLength(n) then 'D' else 'X'
  {
    MediumOfOddBoard(n);
    DrawnIsGlyph(n, TrackCell(n, k));
  }

  /**
   * The drawing agrees with the movement rules: every cell a pawn of either
   * side visits from its entry is drawn '*' until the home lane, 'D' along
   * the home lane, and 'X' at the centre.
   */
  lemma TrackIsDrawn(n: int, side: Side, k: nat)
    requires OddBoard(n) && k <= TrackLength(n)
    ensures Drawn(n, Walk(n, side, Entry(n, side), k))
         == if k < 8 * Medium(n) then '*' else if k < TrackLength(n) then 'D' else 'X'
  {
    WalkOnTrack(n, side, k);
    TrackCellDrawn(n, k);
    DrawnRotated(n, TrackCell(n, k));
  }

  /** Every cell drawn '*' lies on side A's path before its home lane. */
  lemma StarsAreTrack(n: int, p: Coord)
    requires OddBoard(n) && Drawn(n, p) == '*'
    ensures 0 <= TrackIndex(n, p) < 8 * Medium(n)
    ensures TrackCell(n, TrackIndex(n, p)) == p
  {
    MediumOfOddBoard(n);
    DrawnIsGlyph(n, p);
  }

  /** Every cell drawn '*' also lies on side B's path before its home lane. */
  lemma StarsAreSideBTrack(n: int, p: Coord)
    requires OddBoard(n) && Drawn(n, p) == '*'
    ensures 0 <= TrackIndex(n, Rotate(n, p)) < 8 * Medium(n)
    ensures SideTrackCell(n, B, TrackIndex(n, Rotate(n, p))) == p
  {
    DrawnRotated(n, p);
    StarsAreTrack(n, Rotate(n, p));
  }
}
