/**
 * The track a pawn follows when it keeps stepping from its side's entry
 * cell: an explicit description of every cell of side A's path, the proof
 * that stepping follows it, and side B's path as its 180-degree rotation.
 */
module Track {
  import opened Geometry

  /** Number of steps from a side's entry cell to the centre. */
  function TrackLength(n: int): int {
    9 * Medium(n) - 1
  }

  /**
   * The `k`-th cell of side A's path, leg by leg: down the column right of
   * the centre, right along the upper arm, down its end, left along the lower
   * arm, down the lower column, across its foot, up the column left of the
   * centre, left along the arm, up its end, right along the upper arm, up the
   * upper column, one step right at the top, and down the home lane.
   */
  function TrackCell(n: int, k: int): Coord {
    var m := Medium(n);
    var top := n - 1;
    if k < m - 1 then (k, m + 1)
    else if k < 2 * m - 2 then (m - 1, k + 2)
    else if k < 2 * m then (k - m + 1, top)
    else if k < 3 * m - 1 then (m + 1, 4 * m - k)
    else if k < 4 * m - 2 then (k - 2 * m + 2, m + 1)
    else if k < 4 * m then (top, 5 * m - 1 - k)
    else if k < 5 * m - 1 then (6 * m - k, m - 1)
    else if k < 6 * m - 2 then (m + 1, 6 * m - 2 - k)
    else if k < 6 * m then (7 * m - 1 - k, 0)
    else if k < 7 * m - 1 then (m - 1, k - 6 * m)
    else if k < 8 * m - 2 then (8 * m - 2 - k, m - 1)
    else if k < 8 * m - 1 then (0, m - 1)
    else (k - 8 * m + 1, m)
  }

  /** The position on side A's path of a cell of it; -1 for other cells. */
  function TrackIndex(n: int, p: Coord): int {
    var m := Medium(n);
    var top := n - 1;
    var (r, c) := p;
    if c == m + 1 && 0 <= r < m - 1 then r
    else if r == m - 1 && m + 1 <= c < top then c - 2
    else if c == top && m - 1 <= r <= m then r + m - 1
    else if r == m + 1 && m + 2 <= c <= top then 4 * m - c
    else if c == m + 1 && m + 1 <= r < top then r + 2 * m - 2
    else if r == top && m <= c <= m + 1 then 5 * m - 1 - c
    else if c == m - 1 && m + 2 <= r <= top then 6 * m - r
    else if r == m + 1 && 1 <= c <= m - 1 then 6 * m - 2 - c
    else if c == 0 && m <= r <= m + 1 then 7 * m - 1 - r
    else if r == m - 1 && 0 <= c <= m - 2 then c + 6 * m
    else if c == m - 1 && 1 <= r <= m - 1 then 8 * m - 2 - r
    else if r == 0 && c == m - 1 then 8 * m - 2
    else if c == m && 0 <= r <= m then r + 8 * m - 1
    else -1
  }

  lemma TrackEnds(n: int)
    requires OddBoard(n)
    ensures TrackLength(n) > 0
    ensures TrackCell(n, 0) == Entry(n, A)
    ensures TrackCell(n, TrackLength(n)) == Centre(n)
  {
    MediumOfOddBoard(n);
  }

  /** Each step of a side-A pawn on its path moves it to the next path cell. */
  lemma TrackStep(n: int, k: int)
    requires OddBoard(n) && 0 <= k < TrackLength(n)
    ensures NextPosition(n, A, TrackCell(n, k)) == TrackCell(n, k + 1)
  {
    MediumOfOddBoard(n);
  }

  /** Walking from side A's entry follows the path cell by cell. */
  lemma {:induction false} WalkFollowsTrack(n: int, k: nat)
    requires OddBoard(n) && k <= TrackLength(n)
    ensures Walk(n, A, Entry(n, A), k) == TrackCell(n, k)
  {
    TrackEnds(n);
    if k > 0 {
      WalkFollowsTrack(n, k - 1);
      TrackStep(n, k - 1);
    }
  }

  /** `TrackIndex` inverts `TrackCell`: no cell of the path repeats. */
  lemma TrackIndexInverts(n: int, k: int)
    requires OddBoard(n) && 0 <= k <= TrackLength(n)
    ensures TrackIndex(n, TrackCell(n, k)) == k
  {
    MediumOfOddBoard(n);
  }

  /** The 180-degree rotation of the board, which swaps the two sides. */
  function Rotate(n: int, p: Coord): Coord {
    (n - 1 - p.0, n - 1 - p.1)
  }

  function Reversed(d: Direction): Direction {
    match d
    case Up => Down
    case Down => Up
    case Left => Right
    case Right => Left
    case NoDirection => NoDirection
  }

  /** Side B's rules are side A's rules seen on the rotated board. */
  lemma DirectionSymmetry(n: int, p: Coord)
    requires OddBoard(n)
    ensures GetDirection(n, B, Rotate(n, p)) == Reversed(GetDirection(n, A, p))
  {
    MediumOfOddBoard(n);
  }

  lemma StepSymmetry(n: int, p: Coord)
    requires OddBoard(n)
    ensures NextPosition(n, B, Rotate(n, p)) == Rotate(n, NextPosition(n, A, p))
  {
    DirectionSymmetry(n, p);
    var d := GetDirection(n, A, p);
    assert Step(Rotate(n, p), Reversed(d)) == Rotate(n, Step(p, d));
  }

  lemma {:induction false} WalkSymmetry(n: int, p: Coord, k: nat)
    requires OddBoard(n)
    ensures Walk(n, B, Rotate(n, p), k) == Rotate(n, Walk(n, A, p, k))
  {
    if k > 0 {
      WalkSymmetry(n, p, k - 1);
      StepSymmetry(n, Walk(n, A, p, k - 1));
    }
  }

  /** The `k`-th cell of either side's path. */
  function SideTrackCell(n: int, side: Side, k: int): Coord {
    if side == A then TrackCell(n, k) else Rotate(n, TrackCell(n, k))
  }

  /** Every cell of side A's path up to the centre has a direction. */
  lemma TrackHasDirection(n: int, k: int)
    requires OddBoard(n) && 0 <= k <= TrackLength(n)
    ensures GetDirection(n, A, TrackCell(n, k)) != NoDirection
  {
    MediumOfOddBoard(n);
    if k < TrackLength(n) {
      TrackStep(n, k);
      TrackIndexInverts(n, k);
      TrackIndexInverts(n, k + 1);
    } else {
      assert TrackCell(n, k) == Centre(n);
    }
  }

  /**
   * Stepping `k` times from a side's entry visits the `k`-th cell of its
   * path, and that cell has a direction: the classifier is total on the track.
   */
  lemma WalkOnTrack(n: int, side: Side, k: nat)
    requires OddBoard(n) && k <= TrackLength(n)
    ensures Walk(n, side, Entry(n, side), k) == SideTrackCell(n, side, k)
    ensures GetDirection(n, side, SideTrackCell(n, side, k)) != NoDirection
  {
    WalkFollowsTrack(n, k);
    TrackHasDirection(n, k);
    if side == B {
      MediumOfOddBoard(n);
      assert Entry(n, B) == Rotate(n, Entry(n, A));
      WalkSymmetry(n, Entry(n, A), k);
      DirectionSymmetry(n, TrackCell(n, k));
    }
  }

  /** A pawn stepping from its entry reaches the centre after `TrackLength(n)` steps. */
  lemma EntryReachesCentre(n: int, side: Side)
    requires OddBoard(n)
    ensures TrackLength(n) > 0
    ensures Walk(n, side, Entry(n, side), TrackLength(n)) == Centre(n)
  {
    TrackEnds(n);
    WalkOnTrack(n, side, TrackLength(n));
  }

  /**
   * Before it reaches the centre the path never visits a cell twice, and in
   * particular never the centre.
   */
  lemma TrackNeverRepeats(n: int, side: Side, i: nat, j: nat)
    requires OddBoard(n) && i < j <= TrackLength(n)
    ensures Walk(n, side, Entry(n, side), i) != Walk(n, side, Entry(n, side), j)
  {
    WalkOnTrack(n, side, i);
    WalkOnTrack(n, side, j);
    TrackIndexInverts(n, i);
    TrackIndexInverts(n, j);
  }

  /**
   * A side's start limit lies on neither the opponent's path before its
   * centre nor the opponent's walk from its entry, so blocking it never
   * stops an opponent's pawn short of the centre.
   */
  lemma StartLimitOffOpponentPath(n: int, side: Side, k: nat)
    requires OddBoard(n) && k <= TrackLength(n)
    ensures SideTrackCell(n, B, k) != StartLimit(n, A)
    ensures SideTrackCell(n, A, k) != StartLimit(n, B)
    ensures Walk(n, side, Entry(n, side), k) != StartLimit(n, Opponent(side))
  {
    MediumOfOddBoard(n);
    TrackIndexInverts(n, k);
    assert TrackIndex(n, StartLimit(n, B)) == -1;
    assert Rotate(n, StartLimit(n, A)) == StartLimit(n, B);
    WalkOnTrack(n, side, k);
  }
}
