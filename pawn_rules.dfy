/**
 * The rules of one player's pawns, as functions on the player's state: which
 * cells it blocks, which pawn a move advances and where to, and the
 * soundness invariant every rule keeps.
 */
module PawnRules {
  import opened Common
  import opened Geometry
  import opened Track

  /**
   * What a player holds: pawns still in the house, the cells of its pawns
   * on the board (in the order they entered), and the cells it blocks for
   * the opponent.
   */
  datatype PlayerState = PlayerState(house: int, pawns: seq<Coord>, blocked: set<Coord>)

  /** Pawns not yet scored: in the house plus on the board. */
  function Total(s: PlayerState): int {
    s.house + |s.pawns|
  }

  /** The number of pawns a player starts with in the house. */
  function InitialReserve(n: int): int {
    TruncHalf(n - 3)
  }

  /** A freshly created player: full house, no pawns, its start limit blocked. */
  function Initial(n: int, side: Side): PlayerState {
    PlayerState(InitialReserve(n), [], {StartLimit(n, side)})
  }

  /** Whether the player still has a pawn to play (as in the source, the house count is taken as true when nonzero). */
  function PawnsLeft(s: PlayerState): (r: bool)
    ensures s.house >= 0 ==> (r <==> Total(s) > 0)
    ensures !r <==> s.house == 0 && s.pawns == []
  {
    s.house != 0 || |s.pawns| > 0
  }

  /** A pawn put on the board at the side's entry; the blocked cells are left as they were. */
  function Added(n: int, side: Side, s: PlayerState): PlayerState {
    PlayerState(s.house - 1, s.pawns + [Entry(n, side)], s.blocked)
  }

  /** The pawn at `i` taken off the board, nothing else changed. */
  function Removed(s: PlayerState, i: nat): PlayerState
    requires i < |s.pawns|
  {
    s.(pawns := RemoveAt(s.pawns, i))
  }

  /** The pawn at `i` sent back to the house (it was captured). */
  function SentHome(s: PlayerState, i: nat): PlayerState
    requires i < |s.pawns|
  {
    PlayerState(s.house + 1, RemoveAt(s.pawns, i), s.blocked)
  }

  /** Cells where two or more of the pawns stand. */
  function Stacked(pawns: seq<Coord>): set<Coord> {
    set c | c in pawns && multiset(pawns)[c] > 1
  }

  /** The blocked cells recomputed from the pawns: stacks plus the start limit. */
  function BlockedOf(n: int, side: Side, pawns: seq<Coord>): set<Coord> {
    Stacked(pawns) + {StartLimit(n, side)}
  }

  /** A cell is stacked exactly when two different pawns stand on it. */
  lemma {:induction false} StackedIffTwoPawns(pawns: seq<Coord>, c: Coord)
    ensures c in Stacked(pawns) <==>
      exists i, j :: 0 <= i < j < |pawns| && pawns[i] == c && pawns[j] == c
  {
    if pawns != [] {
      var t := pawns[1..];
      assert pawns == [pawns[0]] + t;
      assert multiset(pawns)[c] == (if pawns[0] == c then 1 else 0) + multiset(t)[c];
      StackedIffTwoPawns(t, c);
      if exists i, j :: 0 <= i < j < |pawns| && pawns[i] == c && pawns[j] == c {
        var i, j :| 0 <= i < j < |pawns| && pawns[i] == c && pawns[j] == c;
        assert t[j - 1] == c;
        if i > 0 {
          assert t[i - 1] == c;
        }
      }
      if c in Stacked(pawns) {
        if pawns[0] == c {
          assert c in multiset(t);
          var j := IndexOf(t, c);
          assert pawns[0] == c && pawns[j + 1] == c;
        } else {
          var i, j :| 0 <= i < j < |t| && t[i] == c && t[j] == c;
          assert pawns[i + 1] == c && pawns[j + 1] == c;
        }
      }
    }
  }

  /** The recomputed blocked cells: the start limit, and every cell two pawns share. */
  lemma BlockedCellsAre(n: int, side: Side, pawns: seq<Coord>, c: Coord)
    ensures c in BlockedOf(n, side, pawns) <==>
      c == StartLimit(n, side) ||
      exists i, j :: 0 <= i < j < |pawns| && pawns[i] == c && pawns[j] == c
  {
    StackedIffTwoPawns(pawns, c);
  }

  /**
   * Adding pawns does not refresh the blocked cells: two pawns entered one
   * after the other share the entry cell without blocking it.
   */
  lemma AddingPawnsLeavesStackUnblocked(n: int, side: Side)
    requires OddBoard(n)
    ensures var s := Added(n, side, Added(n, side, Initial(n, side)));
      Entry(n, side) !in s.blocked && Entry(n, side) in BlockedOf(n, side, s.pawns)
  {
    var s := Added(n, side, Added(n, side, Initial(n, side)));
    assert s.pawns == [Entry(n, side), Entry(n, side)];
    assert s.pawns[0] == Entry(n, side) && s.pawns[1] == Entry(n, side);
    BlockedCellsAre(n, side, s.pawns, Entry(n, side));
  }

  /** No cell of the `moves` steps from `p` is blocked. */
  predicate PathClear(n: int, side: Side, p: Coord, moves: nat, blocked: set<Coord>) {
    forall j :: 1 <= j <= moves ==> Walk(n, side, p, j) !in blocked
  }

  /** The index of the first pawn at or after `from` whose path is clear. */
  function FirstMovable(n: int, side: Side, pawns: seq<Coord>, moves: nat, blocked: set<Coord>, from: nat):
    (r: Option<nat>)
    requires from <= |pawns|
    ensures r.Some? ==>
      && from <= r.value < |pawns|
      && PathClear(n, side, pawns[r.value], moves, blocked)
      && forall j :: from <= j < r.value ==> !PathClear(n, side, pawns[j], moves, blocked)
    ensures r.None? <==> forall j :: from <= j < |pawns| ==> !PathClear(n, side, pawns[j], moves, blocked)
    decreases |pawns| - from
  {
    if from == |pawns| then None
    else if PathClear(n, side, pawns[from], moves, blocked) then Some(from)
    else FirstMovable(n, side, pawns, moves, blocked, from + 1)
  }

  /**
   * The player after `move_pawn(moves, blocked)`: the first pawn with a
   * clear path advances `moves` steps and is taken off if it lands on the
   * centre; otherwise its cell is updated and the blocked cells recomputed.
   * When no pawn can move nothing changes.
   */
  function AfterMove(n: int, side: Side, s: PlayerState, moves: nat, blocked: set<Coord>): PlayerState {
    match FirstMovable(n, side, s.pawns, moves, blocked, 0)
    case None => s
    case Some(i) =>
      var q := Walk(n, side, s.pawns[i], moves);
      if q == Centre(n) then Removed(s, i)
      else
        var pawns := s.pawns[i := q];
        PlayerState(s.house, pawns, BlockedOf(n, side, pawns))
  }

  /** Whether `move_pawn` moves one of the pawns. */
  predicate Movable(n: int, side: Side, s: PlayerState, moves: nat, blocked: set<Coord>) {
    FirstMovable(n, side, s.pawns, moves, blocked, 0).Some?
  }

  /** Whether the pawn that moves ends on the centre and scores. */
  predicate Scores(n: int, side: Side, s: PlayerState, moves: nat, blocked: set<Coord>) {
    var r := FirstMovable(n, side, s.pawns, moves, blocked, 0);
    r.Some? && Walk(n, side, s.pawns[r.value], moves) == Centre(n)
  }

  /**
   * A move changes only the pawn chosen: the house is untouched, the total
   * drops by one exactly when the pawn scores, and every other pawn keeps its
   * cell (and, unless the mover scored, its index).
   */
  lemma MoveChangesOnlyTheChosenPawn(n: int, side: Side, s: PlayerState, moves: nat, blocked: set<Coord>)
    ensures var t := AfterMove(n, side, s, moves, blocked);
      && t.house == s.house
      && Total(t) == (if Scores(n, side, s, moves, blocked) then Total(s) - 1 else Total(s))
      && (!Movable(n, side, s, moves, blocked) ==> t == s)
      && (Movable(n, side, s, moves, blocked) ==>
            var i := FirstMovable(n, side, s.pawns, moves, blocked, 0).value;
            if Scores(n, side, s, moves, blocked) then
              t.pawns == s.pawns[..i] + s.pawns[i + 1..] && t.blocked == s.blocked
            else
              && |t.pawns| == |s.pawns|
              && t.pawns[i] == Walk(n, side, s.pawns[i], moves)
              && (forall j :: 0 <= j < |s.pawns| && j != i ==> t.pawns[j] == s.pawns[j])
              && t.blocked == BlockedOf(n, side, t.pawns))
  {
  }

  /**
   * A pawn never moves past the centre: the step after the centre is the
   * opponent's start limit, which the opponent always blocks.
   */
  lemma NoOvershoot(n: int, side: Side, p: Coord, moves: nat, blocked: set<Coord>)
    requires OddBoard(n)
    requires StartLimit(n, Opponent(side)) in blocked
    requires PathClear(n, side, p, moves, blocked)
    ensures forall j :: 0 <= j < moves ==> Walk(n, side, p, j) != Centre(n)
  {
    StepPastCentre(n, side);
    forall j | 0 <= j < moves
      ensures Walk(n, side, p, j) != Centre(n)
    {
      assert Walk(n, side, p, j + 1) !in blocked;
      assert Walk(n, side, p, j + 1) == NextPosition(n, side, Walk(n, side, p, j));
    }
  }

  /**
   * A pawn on a cell without a direction never leaves it: its path of any
   * length is clear exactly when it has no steps or its own cell is not
   * blocked, and then `move_pawn` reports a move that leaves it in place.
   */
  lemma {:induction false} StuckPawnStays(n: int, side: Side, p: Coord, moves: nat, blocked: set<Coord>)
    requires GetDirection(n, side, p) == NoDirection
    ensures Walk(n, side, p, moves) == p
    ensures PathClear(n, side, p, moves, blocked) <==> moves == 0 || p !in blocked
  {
    WalkStuck(n, side, p, moves);
    forall j | 1 <= j <= moves
      ensures Walk(n, side, p, j) == p
    {
      WalkStuck(n, side, p, j);
    }
  }

  /** The cell is the `k`-th of the side's path for some `k` before the centre. */
  ghost predicate OnTrackCell(n: int, side: Side, p: Coord) {
    exists k: nat :: k < TrackLength(n) && Walk(n, side, Entry(n, side), k) == p
  }

  ghost predicate OnTrack(n: int, side: Side, pawns: seq<Coord>) {
    forall p :: p in pawns ==> OnTrackCell(n, side, p)
  }

  /**
   * A pawn on its side's path that makes a clear move of `moves` steps and
   * does not land on the centre is still on the path, further along.
   */
  lemma MoveStaysOnTrack(n: int, side: Side, p: Coord, moves: nat, blocked: set<Coord>)
    requires OddBoard(n)
    requires StartLimit(n, Opponent(side)) in blocked
    requires OnTrackCell(n, side, p)
    requires PathClear(n, side, p, moves, blocked)
    requires Walk(n, side, p, moves) != Centre(n)
    ensures OnTrackCell(n, side, Walk(n, side, p, moves))
  {
    var e := Entry(n, side);
    var k: nat :| k < TrackLength(n) && Walk(n, side, e, k) == p;
    MoveEndsBeforeCentre(n, side, k, moves, blocked);
    WalkAdd(n, side, e, k, moves);
  }

  /** The index on the path after a clear move that does not score stays below the centre's. */
  lemma MoveEndsBeforeCentre(n: int, side: Side, k: nat, moves: nat, blocked: set<Coord>)
    requires OddBoard(n)
    requires StartLimit(n, Opponent(side)) in blocked
    requires k < TrackLength(n)
    requires PathClear(n, side, Walk(n, side, Entry(n, side), k), moves, blocked)
    requires Walk(n, side, Walk(n, side, Entry(n, side), k), moves) != Centre(n)
    ensures k + moves < TrackLength(n)
  {
    var e := Entry(n, side);
    var p := Walk(n, side, e, k);
    var len := TrackLength(n);
    if k + moves >= len {
      var j: nat := len - k;
      EntryReachesCentre(n, side);
      WalkAdd(n, side, e, k, j);
      assert Walk(n, side, p, j) == Centre(n);
      if j < moves {
        NoOvershoot(n, side, p, moves, blocked);
      }
      assert false;
    }
  }

  /**
   * The invariant of a player during a match on a board of odd size: the
   * house count is not negative, the start limit is blocked, every pawn is on
   * the side's path before the centre, and no pawn has appeared from nowhere.
   */
  ghost predicate Sound(n: int, side: Side, s: PlayerState) {
    && OddBoard(n)
    && s.house >= 0
    && StartLimit(n, side) in s.blocked
    && OnTrack(n, side, s.pawns)
    && Total(s) <= InitialReserve(n)
  }

  lemma InitialSound(n: int, side: Side)
    requires OddBoard(n)
    ensures Sound(n, side, Initial(n, side))
    ensures Sound(n, side, Added(n, side, Initial(n, side)))
  {
    MediumOfOddBoard(n);
    EntryOnTrack(n, side);
  }

  lemma EntryOnTrack(n: int, side: Side)
    requires OddBoard(n)
    ensures OnTrackCell(n, side, Entry(n, side))
  {
    EntryReachesCentre(n, side);
    assert Walk(n, side, Entry(n, side), 0) == Entry(n, side);
  }

  /** Adding a pawn while the house is not empty keeps the player sound. */
  lemma AddedSound(n: int, side: Side, s: PlayerState)
    requires Sound(n, side, s) && s.house != 0
    ensures Sound(n, side, Added(n, side, s))
    ensures Total(Added(n, side, s)) == Total(s)
  {
    EntryOnTrack(n, side);
  }

  /** Sending a pawn home keeps the player sound and its total unchanged. */
  lemma SentHomeSound(n: int, side: Side, s: PlayerState, i: nat)
    requires Sound(n, side, s) && i < |s.pawns|
    ensures Sound(n, side, SentHome(s, i))
    ensures Total(SentHome(s, i)) == Total(s)
  {
    var t := SentHome(s, i);
    forall p | p in t.pawns
      ensures OnTrackCell(n, side, p)
    {
      var j :| 0 <= j < |t.pawns| && t.pawns[j] == p;
      assert p == s.pawns[if j < i then j else j + 1];
    }
  }

  /** Taking a pawn off the board (scoring) keeps the player sound and lowers the total by one. */
  lemma RemovedSound(n: int, side: Side, s: PlayerState, i: nat)
    requires Sound(n, side, s) && i < |s.pawns|
    ensures Sound(n, side, Removed(s, i))
    ensures Total(Removed(s, i)) == Total(s) - 1
  {
    var t := Removed(s, i);
    forall p | p in t.pawns
      ensures OnTrackCell(n, side, p)
    {
      var j :| 0 <= j < |t.pawns| && t.pawns[j] == p;
      assert p == s.pawns[if j < i then j else j + 1];
    }
  }

  /** A move against an opponent that blocks its own start limit keeps the player sound. */
  lemma AfterMoveSound(n: int, side: Side, s: PlayerState, moves: nat, blocked: set<Coord>)
    requires Sound(n, side, s)
    requires StartLimit(n, Opponent(side)) in blocked
    ensures Sound(n, side, AfterMove(n, side, s, moves, blocked))
    ensures Total(AfterMove(n, side, s, moves, blocked)) <= Total(s)
  {
    var t := AfterMove(n, side, s, moves, blocked);
    match FirstMovable(n, side, s.pawns, moves, blocked, 0)
    case None =>
    case Some(i) =>
      var q := Walk(n, side, s.pawns[i], moves);
      if q == Centre(n) {
        forall p | p in t.pawns
          ensures OnTrackCell(n, side, p)
        {
          var j :| 0 <= j < |t.pawns| && t.pawns[j] == p;
          assert p == s.pawns[if j < i then j else j + 1];
        }
      } else {
        MoveStaysOnTrack(n, side, s.pawns[i], moves, blocked);
        forall p | p in t.pawns
          ensures OnTrackCell(n, side, p)
        {
          var j :| 0 <= j < |t.pawns| && t.pawns[j] == p;
          if j != i {
            assert p == s.pawns[j];
          }
        }
      }
  }

  /**
   * A lone pawn whose very next cell is blocked cannot move at all, whatever
   * the number of steps: nothing moves and the player is unchanged.
   */
  lemma BlockedNextCellStopsLonePawn(n: int, side: Side, s: PlayerState, moves: nat, blocked: set<Coord>)
    requires |s.pawns| == 1 && moves >= 1
    requires NextPosition(n, side, s.pawns[0]) in blocked
    ensures !Movable(n, side, s, moves, blocked)
    ensures AfterMove(n, side, s, moves, blocked) == s
  {
    assert Walk(n, side, s.pawns[0], 1) in blocked;
  }

  /** The worked example: on an 11 x 11 board a new pawn of side A moves six cells to (4, 8). */
  lemma SixStepsFromEntryOn11()
    ensures Entry(11, A) == (0, 6)
    ensures PathClear(11, A, (0, 6), 6, {StartLimit(11, B)})
    ensures Walk(11, A, (0, 6), 6) == (4, 8)
  {
    WalkOnTrack(11, A, 1);
    WalkOnTrack(11, A, 2);
    WalkOnTrack(11, A, 3);
    WalkOnTrack(11, A, 4);
    WalkOnTrack(11, A, 5);
    WalkOnTrack(11, A, 6);
  }

  /** On an 11 x 11 board a pawn of side A reaches the centre from its entry in 44 steps. */
  lemma CentreReachedOn11()
    ensures Walk(11, A, (0, 6), 44) == (5, 5)
  {
    EntryReachesCentre(11, A);
  }
}
