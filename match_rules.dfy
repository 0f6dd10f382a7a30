/**
 * The rules of a match as relations between the two players' states:
 * capture after a move, the action a six grants, a whole turn of up to three
 * rolls, and who moves first.
 */
module MatchRules {
  import opened Common
  import opened Geometry
  import opened PawnRules

  /** Cells where pawns of both players stand. */
  function Shared(a: seq<Coord>, b: seq<Coord>): set<Coord> {
    set c | c in a && c in b
  }

  /** No cell is shared exactly when no pawn of one player stands where a pawn of the other does. */
  lemma SharedEmptyIff(a: seq<Coord>, b: seq<Coord>)
    ensures Shared(a, b) == {} <==> forall i, j :: 0 <= i < |a| && 0 <= j < |b| ==> a[i] != b[j]
  {
    var r := Shared(a, b);
    if r != {} {
      var c :| c in r;
      var i :| 0 <= i < |a| && a[i] == c;
      var j :| 0 <= j < |b| && b[j] == c;
      assert a[i] == b[j];
    } else {
      forall i, j | 0 <= i < |a| && 0 <= j < |b|
        ensures a[i] != b[j]
      {
        assert a[i] in a && b[j] in b;
        assert a[i] !in r;
      }
    }
  }

  /**
   * Capture after a move: when the mover's pawns and the opponent's share a
   * cell, the opponent's first pawn on one such cell (which one of the cells
   * is not fixed) goes back to its house; otherwise nothing changes.
   */
  ghost predicate Captures(mover: seq<Coord>, before: PlayerState, after: PlayerState) {
    if Shared(mover, before.pawns) == {} then after == before
    else exists c :: c in Shared(mover, before.pawns) && after == SentHome(before, IndexOf(before.pawns, c))
  }

  /**
   * What capture does to the opponent: its total and its blocked cells stay,
   * and when a cell is shared one pawn on such a cell leaves the board for the
   * house.
   */
  lemma CaptureAccounting(mover: seq<Coord>, before: PlayerState, after: PlayerState)
    requires Captures(mover, before, after)
    ensures Total(after) == Total(before) && after.blocked == before.blocked
    ensures Shared(mover, before.pawns) == {} ==> after == before
    ensures Shared(mover, before.pawns) != {} ==>
      && after.house == before.house + 1
      && exists i :: 0 <= i < |before.pawns| && before.pawns[i] in mover &&
                     after.pawns == before.pawns[..i] + before.pawns[i + 1..]
  {
    if Shared(mover, before.pawns) != {} {
      var c :| c in Shared(mover, before.pawns) && after == SentHome(before, IndexOf(before.pawns, c));
      var i := IndexOf(before.pawns, c);
      assert before.pawns[i] in mover;
    }
  }

  lemma CapturesSound(n: int, side: Side, mover: seq<Coord>, before: PlayerState, after: PlayerState)
    requires Sound(n, side, before) && Captures(mover, before, after)
    ensures Sound(n, side, after)
  {
    if Shared(mover, before.pawns) != {} {
      var c :| c in Shared(mover, before.pawns) && after == SentHome(before, IndexOf(before.pawns, c));
      SentHomeSound(n, side, before, IndexOf(before.pawns, c));
    }
  }

  /** `Game.move_pawn`: the mover's move, then capture if a pawn moved. */
  ghost predicate MoveStep(n: int, side: Side, me: PlayerState, other: PlayerState, moves: nat,
                           me': PlayerState, other': PlayerState)
  {
    && me' == AfterMove(n, side, me, moves, other.blocked)
    && if Movable(n, side, me, moves, other.blocked) then Captures(me'.pawns, other, other') else other' == other
  }

  /** `six_move`: a new pawn while the house is not empty, otherwise a move of six cells. */
  ghost predicate SixStep(n: int, side: Side, me: PlayerState, other: PlayerState,
                          me': PlayerState, other': PlayerState)
  {
    if me.house != 0 then me' == Added(n, side, me) && other' == other
    else MoveStep(n, side, me, other, 6, me', other')
  }

  /** The states reachable from `me0`, `other0` by `k` six actions in a row. */
  ghost predicate AfterSixes(n: int, side: Side, me0: PlayerState, other0: PlayerState, k: nat,
                             me: PlayerState, other: PlayerState)
    decreases k
  {
    if k == 0 then me == me0 && other == other0
    else exists pm, po :: AfterSixes(n, side, me0, other0, k - 1, pm, po) && SixStep(n, side, pm, po, me, other)
  }

  /** One more six action extends a run of them. */
  lemma AfterSixesExtend(n: int, side: Side, me0: PlayerState, other0: PlayerState, k: nat,
                         pm: PlayerState, po: PlayerState, me: PlayerState, other: PlayerState)
    requires AfterSixes(n, side, me0, other0, k, pm, po) && SixStep(n, side, pm, po, me, other)
    ensures AfterSixes(n, side, me0, other0, k + 1, me, other)
  {
  }

  /** How many of the (at most three) rolls of a turn come up six before the first that does not. */
  function LeadingSixes(dice: seq<int>): (k: nat)
    requires |dice| >= 3
    ensures k <= 3
    ensures forall i :: 0 <= i < k ==> dice[i] == 6
    ensures k < 3 ==> dice[k] != 6
  {
    if dice[0] != 6 then 0 else if dice[1] != 6 then 1 else if dice[2] != 6 then 2 else 3
  }

  /** The number of rolls a turn makes: through the first non-six, at most three. */
  function RollsUsed(dice: seq<int>): (r: nat)
    requires |dice| >= 3
    ensures 1 <= r <= 3
    ensures forall i :: 0 <= i < r - 1 ==> dice[i] == 6
    ensures r < 3 ==> dice[r - 1] != 6
  {
    var k := LeadingSixes(dice);
    if k < 3 then k + 1 else 3
  }

  /**
   * A whole turn of `make_move` before the players swap: a six action per
   * leading six, then a move of six cells for the first roll that is not a
   * six, if there is one among the three.
   */
  ghost predicate Turn(n: int, side: Side, me0: PlayerState, other0: PlayerState, dice: seq<int>,
                       me: PlayerState, other: PlayerState)
    requires |dice| >= 3
  {
    var k := LeadingSixes(dice);
    if k == 3 then AfterSixes(n, side, me0, other0, 3, me, other)
    else exists pm, po :: AfterSixes(n, side, me0, other0, k, pm, po) && MoveStep(n, side, pm, po, 6, me, other)
  }

  /** A turn whose `k`-th roll is the first that is not a six: the six actions, then a move of six. */
  lemma TurnEndsWithMove(n: int, side: Side, me0: PlayerState, other0: PlayerState, dice: seq<int>, k: nat,
                         pm: PlayerState, po: PlayerState, me: PlayerState, other: PlayerState)
    requires |dice| >= 3 && k < 3 && dice[k] != 6 && forall j :: 0 <= j < k ==> dice[j] == 6
    requires AfterSixes(n, side, me0, other0, k, pm, po) && MoveStep(n, side, pm, po, 6, me, other)
    ensures Turn(n, side, me0, other0, dice, me, other)
  {
    assert LeadingSixes(dice) == k;
  }

  /** A turn of three sixes is three six actions. */
  lemma TurnOfThreeSixes(n: int, side: Side, me0: PlayerState, other0: PlayerState, dice: seq<int>,
                         me: PlayerState, other: PlayerState)
    requires |dice| >= 3 && dice[0] == 6 && dice[1] == 6 && dice[2] == 6
    requires AfterSixes(n, side, me0, other0, 3, me, other)
    ensures Turn(n, side, me0, other0, dice, me, other)
  {
  }

  /**
   * A turn looks only at the rolls it uses: two dice sequences that agree on
   * those rolls allow exactly the same turns, so at most three rolls matter.
   */
  lemma TurnUsesOnlyItsRolls(n: int, side: Side, me0: PlayerState, other0: PlayerState,
                             dice: seq<int>, dice': seq<int>, me: PlayerState, other: PlayerState)
    requires |dice| >= 3 && |dice'| >= 3
    requires dice[..RollsUsed(dice)] == dice'[..RollsUsed(dice)]
    ensures RollsUsed(dice') == RollsUsed(dice)
    ensures Turn(n, side, me0, other0, dice, me, other) <==> Turn(n, side, me0, other0, dice', me, other)
  {
    var r := RollsUsed(dice);
    forall i | 0 <= i < r
      ensures dice[i] == dice'[i]
    {
      assert dice[..r][i] == dice'[..r][i];
    }
    assert LeadingSixes(dice') == LeadingSixes(dice);
  }

  /**
   * One move keeps both players sound, never raises the mover's total and
   * leaves the opponent's total and blocked cells as they were.
   */
  lemma MoveStepSound(n: int, side: Side, me: PlayerState, other: PlayerState, moves: nat,
                      me': PlayerState, other': PlayerState)
    requires Sound(n, side, me) && Sound(n, Opponent(side), other)
    requires MoveStep(n, side, me, other, moves, me', other')
    ensures Sound(n, side, me') && Sound(n, Opponent(side), other')
    ensures Total(me') <= Total(me) && Total(other') == Total(other) && other'.blocked == other.blocked
  {
    AfterMoveSound(n, side, me, moves, other.blocked);
    if Movable(n, side, me, moves, other.blocked) {
      CapturesSound(n, Opponent(side), me'.pawns, other, other');
      CaptureAccounting(me'.pawns, other, other');
    }
  }

  lemma SixStepSound(n: int, side: Side, me: PlayerState, other: PlayerState,
                     me': PlayerState, other': PlayerState)
    requires Sound(n, side, me) && Sound(n, Opponent(side), other)
    requires SixStep(n, side, me, other, me', other')
    ensures Sound(n, side, me') && Sound(n, Opponent(side), other')
    ensures Total(me') <= Total(me) && Total(other') == Total(other)
  {
    if me.house != 0 {
      AddedSound(n, side, me);
    } else {
      MoveStepSound(n, side, me, other, 6, me', other');
    }
  }

  lemma {:induction false} AfterSixesSound(n: int, side: Side, me0: PlayerState, other0: PlayerState, k: nat,
                                           me: PlayerState, other: PlayerState)
    requires Sound(n, side, me0) && Sound(n, Opponent(side), other0)
    requires AfterSixes(n, side, me0, other0, k, me, other)
    ensures Sound(n, side, me) && Sound(n, Opponent(side), other)
    ensures Total(me) <= Total(me0) && Total(other) == Total(other0)
    decreases k
  {
    if k > 0 {
      var pm, po :| AfterSixes(n, side, me0, other0, k - 1, pm, po) && SixStep(n, side, pm, po, me, other);
      AfterSixesSound(n, side, me0, other0, k - 1, pm, po);
      SixStepSound(n, side, pm, po, me, other);
    }
  }

  /**
   * A turn keeps both players sound; the mover's total never rises (it
   * falls only by pawns that scored) and the opponent's total is unchanged:
   * a captured pawn goes back to the house, it is not lost.
   */
  lemma TurnSound(n: int, side: Side, me0: PlayerState, other0: PlayerState, dice: seq<int>,
                  me: PlayerState, other: PlayerState)
    requires |dice| >= 3
    requires Sound(n, side, me0) && Sound(n, Opponent(side), other0)
    requires Turn(n, side, me0, other0, dice, me, other)
    ensures Sound(n, side, me) && Sound(n, Opponent(side), other)
    ensures Total(me) <= Total(me0) && Total(other) == Total(other0)
  {
    var k := LeadingSixes(dice);
    if k == 3 {
      AfterSixesSound(n, side, me0, other0, 3, me, other);
    } else {
      var pm, po :| AfterSixes(n, side, me0, other0, k, pm, po) && MoveStep(n, side, pm, po, 6, me, other);
      AfterSixesSound(n, side, me0, other0, k, pm, po);
      MoveStepSound(n, side, pm, po, 6, me, other);
    }
  }

  /**
   * The first player, from pairs of rolls (A's roll, B's roll): the first
   * pair that differs decides, the higher roll moving first.
   */
  function FirstToMove(rolls: seq<(int, int)>): (r: Option<Side>)
    ensures r.None? <==> forall i :: 0 <= i < |rolls| ==> rolls[i].0 == rolls[i].1
    ensures r.Some? ==>
      exists i :: && 0 <= i < |rolls|
                  && (forall j :: 0 <= j < i ==> rolls[j].0 == rolls[j].1)
                  && rolls[i].0 != rolls[i].1
                  && (r.value == A <==> rolls[i].0 > rolls[i].1)
  {
    if rolls == [] then None
    else if rolls[0].0 > rolls[0].1 then Some(A)
    else if rolls[0].0 < rolls[0].1 then Some(B)
    else
      var r := FirstToMove(rolls[1..]);
      assert forall i :: 1 <= i < |rolls| ==> rolls[i] == rolls[1..][i - 1];
      r
  }

  /** The end test: some player has no pawn left in the house or on the board. */
  function SomeoneWon(one: PlayerState, other: PlayerState): (r: bool)
    ensures one.house >= 0 && other.house >= 0 ==> (r <==> Total(one) == 0 || Total(other) == 0)
  {
    !PawnsLeft(one) || !PawnsLeft(other)
  }

  /**
   * The end test can only turn true at the end of the mover's own turn and
   * only because of the mover: the opponent keeps every pawn it had, so the
   * player announced as the winner after the swap is the one that just moved.
   */
  lemma TurnWinner(n: int, side: Side, me0: PlayerState, other0: PlayerState, dice: seq<int>,
                   me: PlayerState, other: PlayerState)
    requires |dice| >= 3
    requires Sound(n, side, me0) && Sound(n, Opponent(side), other0)
    requires Turn(n, side, me0, other0, dice, me, other)
    requires !SomeoneWon(me0, other0) && SomeoneWon(me, other)
    ensures Total(me) == 0 && Total(other) > 0
  {
    TurnSound(n, side, me0, other0, dice, me, other);
  }
}
