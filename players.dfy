/**
 * The `Player` class: one side's pawns, its house count and the cells it
 * blocks, updated in place by its methods. Each method's new state is a
 * function (in PawnRules) of its old state.
 */
module Players {
  import opened Common
  import opened Geometry
  import opened PawnRules

  class Player {
    const fieldSize: int
    const side: Side
    var pawnsInHouse: int
    var activePawns: seq<Coord>
    var blockedCells: set<Coord>

    /** The player's state as a value. */
    function State(): PlayerState
      reads this
    {
      PlayerState(pawnsInHouse, activePawns, blockedCells)
    }

    /** A player with a full house, no pawns on the board, and its start limit blocked. */
    constructor (fieldSize: int, side: Side)
      ensures this.fieldSize == fieldSize && this.side == side
      ensures State() == Initial(fieldSize, side)
    {
      this.fieldSize := fieldSize;
      this.side := side;
      pawnsInHouse := TruncHalf(fieldSize - 3);
      activePawns := [];
      blockedCells := {};
      new;
      SetStartLimit();
    }

    /** Puts a pawn on the side's entry cell and takes one from the house. */
    method AddPawn()
      modifies this
      ensures State() == Added(fieldSize, side, old(State()))
    {
      activePawns := activePawns + [Entry(fieldSize, side)];
      pawnsInHouse := pawnsInHouse - 1;
    }

    /** Takes the pawn at `index` off the board. */
    method RemovePawn(index: nat)
      requires index < |activePawns|
      modifies this
      ensures State() == Removed(old(State()), index)
    {
      activePawns := RemoveAt(activePawns, index);
    }

    /** Sends the pawn at `index` back to the house. */
    method MovePawnToHome(index: nat)
      requires index < |activePawns|
      modifies this
      ensures State() == SentHome(old(State()), index)
    {
      RemovePawn(index);
      pawnsInHouse := pawnsInHouse + 1;
    }

    /** Recomputes the blocked cells from the pawns; calling it twice gives the same cells. */
    method SetBlockedCells()
      modifies this
      ensures State() == old(State()).(blocked := BlockedOf(fieldSize, side, activePawns))
    {
      blockedCells := Stacked(activePawns);
      SetStartLimit();
    }

    /** Adds the side's start limit to the blocked cells. */
    method SetStartLimit()
      modifies this
      ensures State() == old(State()).(blocked := old(blockedCells) + {StartLimit(fieldSize, side)})
    {
      blockedCells := blockedCells + {StartLimit(fieldSize, side)};
    }

    /**
     * Steps a pawn from `pawn` up to `moves` times; `None` as soon as a step
     * lands on a blocked cell, otherwise the cell reached.
     */
    method Advance(pawn: Coord, moves: nat, blocked: set<Coord>) returns (r: Option<Coord>)
      ensures r.None? <==> !PathClear(fieldSize, side, pawn, moves, blocked)
      ensures r.Some? ==> r.value == Walk(fieldSize, side, pawn, moves)
    {
      var position := pawn;
      var step := 0;
      while step < moves
        invariant 0 <= step <= moves
        invariant position == Walk(fieldSize, side, pawn, step)
        invariant forall j :: 1 <= j <= step ==> Walk(fieldSize, side, pawn, j) !in blocked
      {
        position := NextPosition(fieldSize, side, position);
        step := step + 1;
        if position in blocked {
          assert Walk(fieldSize, side, pawn, step) in blocked;
          return None;
        }
      }
      return Some(position);
    }

    /**
     * Moves the first pawn (in entry order) that can make `moves` steps
     * without landing on a cell of `blocked`; reports whether one moved.
     */
    method MovePawn(moves: nat, blocked: set<Coord>) returns (moved: bool)
      modifies this
      ensures moved == Movable(fieldSize, side, old(State()), moves, blocked)
      ensures State() == AfterMove(fieldSize, side, old(State()), moves, blocked)
    {
      var ind := 0;
      while ind < |activePawns|
        invariant 0 <= ind <= |activePawns|
        invariant State() == old(State())
        invariant FirstMovable(fieldSize, side, activePawns, moves, blocked, 0)
               == FirstMovable(fieldSize, side, activePawns, moves, blocked, ind)
      {
        var newPosition := Advance(activePawns[ind], moves, blocked);
        if newPosition.Some? {
          if newPosition.value == Centre(fieldSize) {
            RemovePawn(ind);
          } else {
            activePawns := activePawns[ind := newPosition.value];
            SetBlockedCells();
          }
          return true;
        }
        ind := ind + 1;
      }
      return false;
    }
  }
}
