/**
 * The `Game` class: the player about to move, its opponent and the turn
 * marker, updated in place. Each method's effect is stated by the relations
 * of MatchRules on the players' states, and every method keeps both players
 * sound.
 */
module Games {
  import opened Common
  import opened Geometry
  import opened PawnRules
  import opened MatchRules
  import opened FieldSize
  import opened Players

  class Game {
    const fieldSize: int
    /** The player about to move. */
    var player: Player
    var anotherPlayer: Player
    /** The side named by the last change of turn; `None` until the first one. */
    var turn: Option<Side>

    /** Two distinct players of opposite sides on the same valid board, both sound. */
    ghost predicate Valid()
      reads this, player, anotherPlayer
    {
      && player != anotherPlayer
      && ValidSize(fieldSize)
      && player.fieldSize == fieldSize && anotherPlayer.fieldSize == fieldSize
      && anotherPlayer.side == Opponent(player.side)
      && Sound(fieldSize, player.side, player.State())
      && Sound(fieldSize, anotherPlayer.side, anotherPlayer.State())
    }

    /**
     * A new game: both players get their first pawn on the board, then the
     * pairs of start rolls decide who moves first.
     */
    constructor (fieldSize: int, startRolls: seq<(int, int)>)
      requires ValidSize(fieldSize) && FirstToMove(startRolls).Some?
      ensures Valid() && this.fieldSize == fieldSize
      ensures fresh(player) && fresh(anotherPlayer)
      ensures player.side == FirstToMove(startRolls).value
      ensures player.State() == Added(fieldSize, player.side, Initial(fieldSize, player.side))
      ensures anotherPlayer.State() == Added(fieldSize, anotherPlayer.side, Initial(fieldSize, anotherPlayer.side))
      ensures turn == if player.side == A then None else Some(B)
      ensures !SomeoneWon()
    {
      this.fieldSize := fieldSize;
      player := new Player(fieldSize, A);
      anotherPlayer := new Player(fieldSize, B);
      turn := None;
      new;
      player.AddPawn();
      anotherPlayer.AddPawn();
      ValidSizeIsOddBoard(fieldSize);
      InitialSound(fieldSize, A);
      InitialSound(fieldSize, B);
      GetStartTurn(startRolls);
    }

    /**
     * Reads pairs of rolls (A's, B's) until one pair differs; the higher
     * roll moves first, swapping the players when it is B's.
     */
    method GetStartTurn(rolls: seq<(int, int)>)
      requires Valid() && player.side == A && FirstToMove(rolls).Some?
      modifies this
      ensures Valid()
      ensures player.side == FirstToMove(rolls).value
      ensures FirstToMove(rolls) == Some(A) ==>
        player == old(player) && anotherPlayer == old(anotherPlayer) && turn == old(turn)
      ensures FirstToMove(rolls) == Some(B) ==>
        player == old(anotherPlayer) && anotherPlayer == old(player) && turn == Some(B)
    {
      var i := 0;
      while i < |rolls|
        invariant 0 <= i <= |rolls|
        invariant FirstToMove(rolls[i..]) == FirstToMove(rolls)
      {
        var (aCube, bCube) := rolls[i];
        if aCube > bCube {
          return;
        } else if aCube < bCube {
          ChangeTurn();
          return;
        }
        assert rolls[i..][1..] == rolls[i + 1..];
        i := i + 1;
      }
      assert false;
    }

    /** Hands the move to the opponent and records its side. */
    method ChangeTurn()
      modifies this
      ensures player == old(anotherPlayer) && anotherPlayer == old(player)
      ensures turn == Some(old(anotherPlayer).side)
      ensures old(Valid()) ==> Valid()
    {
      turn := Some(anotherPlayer.side);
      player, anotherPlayer := anotherPlayer, player;
    }

    /**
     * The mover moves a pawn `move` cells, avoiding the cells the opponent
     * blocks; if a pawn moved, it captures. Reports whether a pawn moved.
     */
    method MovePawn(move: nat) returns (didMove: bool)
      requires Valid()
      modifies player, anotherPlayer
      ensures Valid()
      ensures didMove == Movable(fieldSize, player.side, old(player.State()), move, old(anotherPlayer.blockedCells))
      ensures MoveStep(fieldSize, player.side, old(player.State()), old(anotherPlayer.State()), move,
                       player.State(), anotherPlayer.State())
    {
      ghost var me := player.State();
      ghost var other := anotherPlayer.State();
      didMove := player.MovePawn(move, anotherPlayer.blockedCells);
      if didMove {
        TryToBitPawn();
      }
      MoveStepSound(fieldSize, player.side, me, other, move, player.State(), anotherPlayer.State());
    }

    /** The action a six grants: a new pawn while the house is not empty, otherwise a move of six. */
    method SixMove()
      requires Valid()
      modifies player, anotherPlayer
      ensures Valid()
      ensures SixStep(fieldSize, player.side, old(player.State()), old(anotherPlayer.State()),
                      player.State(), anotherPlayer.State())
    {
      if player.pawnsInHouse != 0 {
        AddedSound(fieldSize, player.side, player.State());
        player.AddPawn();
      } else {
        var _ := MovePawn(6);
      }
    }

    /**
     * One turn: up to three rolls from `dice`; each six grants a six action,
     * and the first roll that is not a six ends the turn with a move of six
     * cells. Then the players swap.
     */
    method MakeMove(dice: seq<int>)
      requires Valid() && |dice| >= 3
      modifies this, player, anotherPlayer
      ensures Valid()
      ensures player == old(anotherPlayer) && anotherPlayer == old(player)
      ensures turn == Some(player.side)
      ensures Turn(fieldSize, anotherPlayer.side, old(player.State()), old(anotherPlayer.State()), dice,
                   anotherPlayer.State(), player.State())
    {
      ghost var me0 := player.State();
      ghost var other0 := anotherPlayer.State();
      ghost var ended := false;
      for i := 0 to 3
        invariant Valid()
        invariant player == old(player) && anotherPlayer == old(anotherPlayer)
        invariant i <= LeadingSixes(dice)
        invariant AfterSixes(fieldSize, player.side, me0, other0, i, player.State(), anotherPlayer.State())
      {
        var move := dice[i];
        ghost var pm := player.State();
        ghost var po := anotherPlayer.State();
        if move != 6 {
          var didMove := MovePawn(6);
          TurnEndsWithMove(fieldSize, player.side, me0, other0, dice, i, pm, po,
                           player.State(), anotherPlayer.State());
          ended := true;
          break;
        }
        SixMove();
        AfterSixesExtend(fieldSize, player.side, me0, other0, i, pm, po, player.State(), anotherPlayer.State());
      }
      ghost var me := player.State();
      ghost var other := anotherPlayer.State();
      if !ended {
        TurnOfThreeSixes(fieldSize, player.side, me0, other0, dice, me, other);
      }
      ChangeTurn();
      assert anotherPlayer.State() == me && player.State() == other;
    }

    /** The end test: one of the players has no pawn left in the house or on the board. */
    function SomeoneWon(): (r: bool)
      reads this, player, anotherPlayer
      ensures Valid() ==> (r <==> Total(player.State()) == 0 || Total(anotherPlayer.State()) == 0)
    {
      MatchRules.SomeoneWon(player.State(), anotherPlayer.State())
    }

    /** The capture after a move: the opponent's first pawn on a shared cell goes home. */
    method TryToBitPawn()
      requires player != anotherPlayer
      modifies anotherPlayer
      ensures Captures(player.State().pawns, old(anotherPlayer.State()), anotherPlayer.State())
    {
      var same := Shared(player.activePawns, anotherPlayer.activePawns);
      if same != {} {
        var c :| c in same;
        anotherPlayer.MovePawnToHome(IndexOf(anotherPlayer.activePawns, c));
      }
    }
  }
}
