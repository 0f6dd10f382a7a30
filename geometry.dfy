/**
 * Board geometry: the direction a pawn of either side takes at a cell of the
 * cross-shaped board, and the single step it makes from there.
 */
module Geometry {

  /** The two players, named "a" and "b" in the source. */
  datatype Side = A | B

  /** The result of the direction classifier; `NoDirection` is the source's
      fall-through (the function returns nothing). */
  datatype Direction = Up | Down | Left | Right | NoDirection

  /** A cell (row, column) of the board. */
  type Coord = (int, int)

  function Opponent(side: Side): Side {
    if side == A then B else A
  }

  /** Python's `int(x / 2)`: division truncated toward zero. */
  function TruncHalf(x: int): (r: int)
    ensures x >= 0 ==> 0 <= x - 2 * r <= 1
    ensures x < 0 ==> -1 <= x - 2 * r <= 0
  {
    if x >= 0 then x / 2 else -((-x) / 2)
  }

  /** `medium`, the index of the middle row and column. */
  function Medium(n: int): int {
    TruncHalf(n - 1)
  }

  /** The board sizes the game is played on: odd and at least 5. */
  predicate OddBoard(n: int) {
    n % 2 == 1 && n >= 5
  }

  lemma MediumOfOddBoard(n: int)
    requires OddBoard(n)
    ensures n == 2 * Medium(n) + 1 && Medium(n) >= 2
  {
  }

  /** The centre cell, where a pawn scores. */
  function Centre(n: int): Coord {
    (Medium(n), Medium(n))
  }

  /** The cell where a new pawn of `side` enters the board. */
  function Entry(n: int, side: Side): Coord {
    var m := Medium(n);
    if side == A then (0, m + 1) else (n - 1, m - 1)
  }

  /** The cell every player keeps permanently blocked for its opponent. */
  function StartLimit(n: int, side: Side): Coord {
    var m := Medium(n);
    if side == A then (m - 1, m) else (m + 1, m)
  }

  /**
   * The direction a pawn of `side` moves at `p` on an `n` x `n` board. The
   * rules are tried in order and the first that matches wins: the side's own
   * home lane (column `medium`), the corner points that turn right, left, up
   * and down, and then membership of a right-, left-, up- or down-going row or
   * column.
   */
  function GetDirection(n: int, side: Side, p: Coord): (d: Direction)
    // the home lane takes precedence over every other rule
    ensures side == A && p.1 == Medium(n) && p.0 != n - 1 ==> d == Down
    ensures side == B && p.1 == Medium(n) && p.0 != 0 ==> d == Up
  {
    var m := Medium(n);
    var (r, c) := p;
    var rightSidePoint :=
      (r == 0 && c == m - 1) || (r == m - 1 && c == 0) || (r == m - 1 && c == m + 1);
    var leftSidePoint :=
      (r == m + 1 && c == m - 1) || (r == m + 1 && c == n - 1) || (r == n - 1 && c == m + 1);
    var upSidePoint :=
      (r == m - 1 && c == m - 1) || (r == m + 1 && c == 0) || (r == n - 1 && c == m - 1);
    var downSidePoint :=
      (r == 0 && c == m + 1) || (r == m - 1 && c == n - 1) || (r == m + 1 && c == m + 1);
    var rightSideRow := r == 0 || r == m - 1;
    var leftSideRow := r == m + 1 || r == n - 1;
    var upSideColumn := c == 0 || c == m - 1;
    var downSideColumn := c == m + 1 || c == n - 1;
    var mediumA := c == m && r != n - 1;
    var mediumB := c == m && r != 0;
    if side == A && mediumA then Down
    else if side == B && mediumB then Up
    else if rightSidePoint then Right
    else if leftSidePoint then Left
    else if upSidePoint then Up
    else if downSidePoint then Down
    else if rightSideRow then Right
    else if leftSideRow then Left
    else if upSideColumn then Up
    else if downSideColumn then Down
    else NoDirection
  }

  /** The cell one step from `p` in direction `d` (no step for `NoDirection`). */
  function Step(p: Coord, d: Direction): Coord {
    match d
    case Right => (p.0, p.1 + 1)
    case Left => (p.0, p.1 - 1)
    case Up => (p.0 - 1, p.1)
    case Down => (p.0 + 1, p.1)
    case NoDirection => p
  }

  /** Manhattan distance between two cells. */
  function Distance(p: Coord, q: Coord): nat {
    (if p.0 >= q.0 then p.0 - q.0 else q.0 - p.0) + (if p.1 >= q.1 then p.1 - q.1 else q.1 - p.1)
  }

  /**
   * One step of a pawn of `side`: one cell in the direction found at `p`, or
   * no move at all when no rule matches.
   */
  function NextPosition(n: int, side: Side, p: Coord): (q: Coord)
    ensures q == p <==> GetDirection(n, side, p) == NoDirection
    ensures Distance(p, q) == if GetDirection(n, side, p) == NoDirection then 0 else 1
    ensures q.0 == p.0 || q.1 == p.1
  {
    Step(p, GetDirection(n, side, p))
  }

  /** Where a pawn of `side` starting at `p` is after `k` steps. */
  function Walk(n: int, side: Side, p: Coord, k: nat): Coord {
    if k == 0 then p else NextPosition(n, side, Walk(n, side, p, k - 1))
  }

  /** Walking `a` steps and then `b` more is walking `a + b` steps. */
  lemma {:induction false} WalkAdd(n: int, side: Side, p: Coord, a: nat, b: nat)
    ensures Walk(n, side, p, a + b) == Walk(n, side, Walk(n, side, p, a), b)
  {
    if b > 0 {
      WalkAdd(n, side, p, a, b - 1);
    }
  }

  /** A cell with no direction is a fixed point of walking. */
  lemma {:induction false} WalkStuck(n: int, side: Side, p: Coord, k: nat)
    requires GetDirection(n, side, p) == NoDirection
    ensures Walk(n, side, p, k) == p
  {
    if k > 0 {
      WalkStuck(n, side, p, k - 1);
    }
  }

  /**
   * A cell off every track line has no direction: no row or column the
   * classifier knows and, for the given side, not on its home lane.
   */
  lemma NoDirectionExactly(n: int, side: Side, p: Coord)
    ensures GetDirection(n, side, p) == NoDirection <==>
      var m := Medium(n);
      && p.0 != 0 && p.0 != m - 1 && p.0 != m + 1 && p.0 != n - 1
      && p.1 != 0 && p.1 != m - 1 && p.1 != m + 1 && p.1 != n - 1
      && !(side == A && p.1 == m && p.0 != n - 1)
      && !(side == B && p.1 == m && p.0 != 0)
  {
  }

  /** One step past the centre lands on the opponent's start-limit cell. */
  lemma StepPastCentre(n: int, side: Side)
    requires OddBoard(n)
    ensures NextPosition(n, side, Centre(n)) == StartLimit(n, Opponent(side))
  {
  }
}
