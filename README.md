# Ludo-style race game: a verified model of the game rules

This project models the rules of a two-player ludo-style game played in a
terminal (`main.py`), and proves facts about them. Two sides, `a` and `b`,
move pawns around a cross-shaped track on an odd `n` x `n` board. A pawn
enters at its side's entry cell. It steps cell by cell, steered by a
direction classifier, and scores when it reaches the centre.

- A cell holding two of a side's own pawns is blocked for the opponent.
- Each side also permanently blocks one cell next to the centre, its
  start limit.
- A pawn that lands on an opponent's pawn sends it back to the opponent's
  house.
- A turn is up to three die rolls. Each six grants a six action: enter a
  pawn, or move six cells if the house is empty. The first roll that is not
  a six moves a pawn exactly six cells and ends the turn.
- The game is over when one side has no pawn left, either in the house or
  on the board.

Modules:

- `Common`: `Option`, and list helpers with Python's meaning (`pop`,
  `[::-1]`, `index`).
- `Geometry`: the direction classifier, single steps, and `Walk`, which is
  `k` steps in a row.
- `Track`: an explicit description of the path a pawn follows on any odd
  board of size at least 5, proved to be what stepping from the entry
  produces. Side B's path is side A's rotated by 180 degrees.
- `PawnRules`: a player's state as a value, and each `Player` operation as
  a function of it. It holds a soundness invariant: pawns stay on the path
  before the centre, the house is never negative, the start limit stays
  blocked, and the pawn total never grows. Every operation keeps it under
  two provisos. A pawn is entered only from a nonempty house, as `six_move`
  checks (main.py:209); `add_pawn` itself has no such guard and takes an
  empty house to -1. A move is made against a blocked set that holds the
  opponent's start limit, as the opponent's blocked cells always do; against
  a set without it a pawn can step past the centre and leave its path.
- `Players`: the `Player` class. Its fields are updated in place, and each
  method is proved to produce the `PawnRules` function of the old state.
- `MatchRules`: capture, the six action, a whole turn, who moves first,
  and the end test, as relations between the two players' states.
- `Games`: the `Game` class, with the player to move, its opponent and the
  turn marker.
- `FieldSize`: validation of the typed board size.
- `Board`: the drawn board, proved square and symmetric. It is also proved
  to agree with the movement rules: the cells drawn `*` are exactly the
  cells of the path before the home lane.

Randomness is replaced by parameters:

- the pairs of start rolls are passed to the `Game` constructor;
- the three dice of a turn are passed to `MakeMove`.

Printing, sleeping and the curses window are not modelled.

Three behaviours of the code that a reader might not expect:

- Blocked cells are recomputed only after a pawn moves to a new cell.
  Adding a pawn, scoring a pawn and losing a pawn to capture all leave
  them as they were. `PawnRules.AddingPawnsLeavesStackUnblocked` shows a
  stack of two pawns on the entry cell that is not blocked.
- The captured cell is the first element of a Python set, whose order is
  not specified. The model leaves the choice of shared cell open; it then
  takes the opponent's first pawn on that cell.
- The start limit's actual effect is that no pawn ever moves past the
  centre. The step after the centre is the opponent's start limit, which
  that opponent always blocks (`PawnRules.NoOvershoot`). It never stands in
  the opponent's way before its centre, since it is on no cell of the
  opponent's path (`Track.StartLimitOffOpponentPath`).

## Model

| member | source | states |
|---|---|---|
| Common.RemoveAt | main.py:29-30 | `pop(i)`: length drops by one, elements before `i` stay, later ones shift down, multiset loses exactly `s[i]` |
| Common.Reverse | main.py:303-305 | `[::-1]`: same length, element `i` is element `len-1-i` of the input |
| Common.IndexOf | main.py:239 | `list.index`: an index holding `x` with no earlier occurrence of `x` |
| Geometry.TruncHalf | main.py:10 | `int(x / 2)` truncates toward zero: the remainder `x - 2 * r` is 0 or 1 for nonnegative `x` and 0 or -1 for negative `x` |
| Geometry.MediumOfOddBoard | main.py:19 | on an odd board of size at least 5, `n == 2 * medium + 1` and `medium >= 2` |
| Geometry.GetDirection | main.py:100-155 | direction classifier tried in source order; a side's own home lane beats every other rule |
| Geometry.NextPosition | main.py:85-98 | a step stays put exactly when no direction is found; otherwise it moves to an orthogonal neighbour |
| Geometry.WalkAdd | main.py:70-71 | walking `a` steps and then `b` more equals walking `a + b` steps |
| Geometry.WalkStuck | main.py:85-98 | a cell without a direction is never left, however many steps are taken |
| Geometry.NoDirectionExactly | main.py:128-155 | no direction exactly when the cell is on none of the track rows, columns or the side's home lane |
| Geometry.StepPastCentre | main.py:51-57 | the step after the centre lands on the opponent's start-limit cell |
| Track.TrackEnds | main.py:18-24 | path position 0 is side A's entry cell; position `9 * medium - 1` is the centre |
| Track.TrackStep | main.py:85-155 | one step of a side-A pawn on the path goes to the next path cell |
| Track.WalkFollowsTrack | main.py:70-71 | `k` steps from side A's entry reach path cell `k` |
| Track.TrackIndexInverts | main.py:100-155 | every path cell gives back its own position, so no cell appears twice |
| Track.DirectionSymmetry | main.py:100-155 | side B's classifier on the rotated board is side A's with every direction reversed |
| Track.StepSymmetry | main.py:85-98 | a side-B step on the rotated board is the rotation of a side-A step |
| Track.WalkSymmetry | main.py:70-71 | a side-B walk on the rotated board is the rotation of a side-A walk |
| Track.TrackHasDirection | main.py:100-155 | every cell of side A's path up to the centre has a direction |
| Track.WalkOnTrack | main.py:100-155 | either side's walk from its entry follows its path, and each cell on it up to the centre has a direction |
| Track.EntryReachesCentre | main.py:76-77 | from its entry, a pawn of either side reaches the centre after exactly `9 * medium - 1` steps |
| Track.TrackNeverRepeats | main.py:67-81 | before the centre, a side's path never revisits a cell |
| Track.StartLimitOffOpponentPath | main.py:51-57 | a side's start-limit cell is on no cell of the opponent's path up to its centre, so the opponent's walk from its entry never meets it |
| PawnRules.PawnsLeft | main.py:39-40 | `pawns_left` is false exactly when the house count is 0 and no pawn is on the board; with a nonnegative house, true exactly when the total is positive |
| PawnRules.StackedIffTwoPawns | main.py:48 | a cell is stacked exactly when two distinct pawns stand on it |
| PawnRules.BlockedCellsAre | main.py:46-57 | recomputed blocked cells are the start limit plus the cells held by two pawns |
| PawnRules.AddingPawnsLeavesStackUnblocked | main.py:18-26 | two pawns entered in a row share the entry cell, yet that cell is not among the blocked cells |
| PawnRules.FirstMovable | main.py:67-75 | the lowest index whose pawn has a clear path of `moves` steps, or none exactly when every pawn's path is blocked |
| PawnRules.MoveChangesOnlyTheChosenPawn | main.py:64-83 | a move leaves the house alone and changes only the first movable pawn; a scoring pawn is removed (total drops by one) and blocked cells stay; otherwise blocked cells are recomputed |
| PawnRules.StuckPawnStays | main.py:67-74 | from a cell without a direction, `moves` steps end where they began, and the path is clear exactly when there are no steps or that cell is not blocked |
| PawnRules.NoOvershoot | main.py:73-77 | against an opponent that blocks its start limit, a path that is clear never passes through the centre before its last step |
| PawnRules.MoveEndsBeforeCentre | main.py:64-83 | a clear move from path position `k` that does not land on the centre ends strictly before it on the path |
| PawnRules.MoveStaysOnTrack | main.py:64-83 | a pawn on its path that moves and does not score is still on its path before the centre |
| PawnRules.InitialSound | main.py:8-26 | a fresh player, and a fresh player with its first pawn entered, satisfy the soundness invariant |
| PawnRules.EntryOnTrack | main.py:18-24 | the entry cell is on the side's path before the centre |
| PawnRules.AddedSound | main.py:18-26 | entering a pawn from a nonempty house keeps the invariant and the total |
| PawnRules.RemovedSound | main.py:76-77 | taking a scoring pawn off the board keeps the invariant and lowers the total by one |
| PawnRules.SentHomeSound | main.py:32-34 | sending a pawn home keeps the invariant and the total |
| PawnRules.AfterMoveSound | main.py:64-83 | a move against a blocked set holding the opponent's start limit keeps the invariant and never raises the total |
| PawnRules.BlockedNextCellStopsLonePawn | main.py:67-75 | a single pawn whose next cell is blocked cannot move; the player is unchanged |
| PawnRules.SixStepsFromEntryOn11 | main.py:64-83 | on an 11 x 11 board a new side-A pawn at (0, 6) moves six cells to (4, 8) |
| PawnRules.CentreReachedOn11 | main.py:76-77 | on an 11 x 11 board side A reaches the centre (5, 5) from (0, 6) in 44 steps |
| Players.Player.constructor | main.py:8-15 | full house of `int((n - 3) / 2)` pawns, no pawns on the board, only the start limit blocked |
| Players.Player.AddPawn | main.py:18-26 | appends the side's entry cell and decrements the house; blocked cells untouched |
| Players.Player.RemovePawn | main.py:29-30 | removes the pawn at the index; nothing else changes |
| Players.Player.MovePawnToHome | main.py:32-34 | removes the pawn at the index and increments the house |
| Players.Player.SetBlockedCells | main.py:46-49 | blocked cells become the stacked cells plus the start limit, a function of the pawns alone, so calling twice changes nothing more |
| Players.Player.SetStartLimit | main.py:51-57 | adds the side's start-limit cell to the blocked cells |
| Players.Player.Advance | main.py:68-75 | stepping `moves` times fails exactly when some step lands on a blocked cell; otherwise returns the cell `moves` steps on |
| Players.Player.MovePawn | main.py:64-83 | reports whether a pawn could move, and the new state is the move function of the old state |
| MatchRules.SharedEmptyIff | main.py:236-238 | no cell is shared exactly when no pawn of one player stands on a cell of a pawn of the other |
| MatchRules.CaptureAccounting | main.py:235-240 | a capture keeps the opponent's total and blocked cells; with a shared cell, one opponent pawn on a mover's cell goes home; with none, nothing changes |
| MatchRules.CapturesSound | main.py:235-240 | a capture keeps the opponent sound |
| MatchRules.AfterSixesExtend | main.py:216-228 | one more six action extends a run of them |
| MatchRules.LeadingSixes | main.py:216-226 | the number of sixes before the first non-six, at most three |
| MatchRules.RollsUsed | main.py:216-226 | a turn uses one to three rolls: every roll before the last is a six, and the last is not a six unless there were three |
| MatchRules.TurnEndsWithMove | main.py:216-226 | `k` sixes followed by a non-six make a turn of `k` six actions and one move of six |
| MatchRules.TurnOfThreeSixes | main.py:216-228 | three sixes make a turn of three six actions and no further move |
| MatchRules.TurnUsesOnlyItsRolls | main.py:216-226 | a turn depends only on the one to three rolls it uses: dice that agree on them allow exactly the same turns |
| MatchRules.MoveStepSound | main.py:200-206 | a move with capture keeps both players sound, never raises the mover's total, and keeps the opponent's total and blocked cells |
| MatchRules.SixStepSound | main.py:208-213 | a six action keeps both players sound and the totals as above |
| MatchRules.AfterSixesSound | main.py:215-228 | any run of six actions keeps both players sound and the totals as above |
| MatchRules.TurnSound | main.py:215-230 | a whole turn keeps both players sound; the mover's total never rises and the opponent's is unchanged |
| MatchRules.FirstToMove | main.py:172-181 | the first pair of start rolls that differs decides; the higher roll moves first; none exactly when every pair is equal |
| MatchRules.SomeoneWon | main.py:232-233 | with nonnegative houses, true exactly when some player's total is zero |
| MatchRules.TurnWinner | main.py:343-349 | if a turn ends the game, the mover has no pawns left and the opponent still has some, so the winner announced after the turn is the mover |
| Games.Game.constructor | main.py:158-170 | both players sound with one pawn entered each; the start rolls decide who moves first; the game is not over |
| Games.Game.GetStartTurn | main.py:172-181 | swaps the players exactly when B rolls higher in the first pair that differs |
| Games.Game.ChangeTurn | main.py:183-185 | swaps the players, records the new mover's side, and keeps validity |
| Games.Game.MovePawn | main.py:200-206 | the mover's move against the opponent's blocked cells, then a capture if a pawn moved; keeps validity |
| Games.Game.SixMove | main.py:208-213 | enters a pawn while the house count is nonzero, otherwise moves six; keeps validity |
| Games.Game.MakeMove | main.py:215-230 | the players' new states are a turn of the dice, then the players swap and the turn marker names the new mover |
| Games.Game.SomeoneWon | main.py:232-233 | in a valid game, true exactly when some player's total is zero |
| Games.Game.TryToBitPawn | main.py:235-240 | the opponent's new state is a capture by the mover's pawns |
| FieldSize.DropLast | main.py:330 | `s[:-1]` gives `s` without its last character, or nothing for an empty string |
| FieldSize.ValidSizeIsOddBoard | main.py:329-341 | an accepted value is an odd board of size at least 5 |
| FieldSize.SizeIsCorrect | main.py:329-341 | accepted exactly when the text without its last character is a number that is odd and 5..21; not a number first, then too many above 21 |
| FieldSize.ShowDecimal | main.py:332-339 | decimal digits of a natural number read back to that number |
| FieldSize.AcceptsEveryValidSize | main.py:329-341 | every valid size, typed in decimal and followed by any character, is accepted |
| FieldSize.AcceptedSizeIsOddBoard | main.py:329-341 | the value of accepted text is an odd board of size at least 5 |
| FieldSize.AcceptedExamples | main.py:329-341 | "11\n" and "011\n" are accepted |
| FieldSize.NotIntExamples | main.py:332-333 | "x1\n", "\n" and "" are refused as not a number |
| FieldSize.TooManyExamples | main.py:335-336 | "22\n" and "23\n" are refused as too many, before evenness is looked at |
| FieldSize.ValPropsExamples | main.py:338-339 | "4\n", "12\n" are refused for their value, and so is "11" with no trailing character |
| Board.Repeat | main.py:277 | `c * k`: `k` copies of `c`, empty for `k <= 0` |
| Board.SymmetryRow | main.py:303-305 | a row of length `2 * len + 1` that starts with the string, has the middle character in the middle, and reads the same backwards |
| Board.EdgeRowShape | main.py:277 | the first row is the board's edge row |
| Board.ArmRowShape | main.py:279-280 | the rows added by the loop are the arm rows |
| Board.CrossRowShape | main.py:282 | the next row is the row crossing the arms |
| Board.MiddleRowShape | main.py:284 | the next row is the middle row |
| Board.MirrorGivesTemplate | main.py:286 | the upper half followed by the rows above the middle in reverse order is the whole board |
| Board.SetMatrix | main.py:274-289 | the matrix built equals the cell-by-cell description of the board |
| Board.TemplateShape | main.py:274-289 | the board is `n` x `n`, symmetric top to bottom and left to right, with 'X' at the centre |
| Board.DrawnIsGlyph | main.py:274-289 | each cell's character depends only on its folded row and column |
| Board.DrawnRotated | main.py:286 | the 180-degree rotation leaves every drawn cell unchanged |
| Board.TrackCellDrawn | main.py:274-289 | side A's path is drawn '*' up to the home lane, 'D' along it, 'X' at the centre |
| Board.TrackIsDrawn | main.py:274-289 | every cell either side's pawn visits from its entry is drawn '*' until the home lane, 'D' along it, 'X' at the centre |
| Board.StarsAreTrack | main.py:274-289 | every cell drawn '*' is a cell of side A's path before the home lane |
| Board.StarsAreSideBTrack | main.py:274-289 | every cell drawn '*' is also a cell of side B's path before the home lane |

## Left out

- Printing, the curses window, text input and sleeping (`print_field`,
  `print_log`, `print_matrix`, `Terminal.input`, `Terminal.print`) are I/O.
  The `Game` keeps no copy of the board matrix, which it uses only for
  printing.
- `random.random()` is replaced by rolls passed in as parameters. The
  model does not require dice values to be in 1..6; only "six or not
  six" matters to the rules.
- Games.Game.GetStartTurn: the source loops until a pair of start rolls
  differs, so the constructor requires a sequence that holds one.
- Players.Player.RemovePawn: requires a valid nonnegative index. Python's
  negative indices and `IndexError` are not modelled, because every caller
  passes an index of an existing pawn.
- Players.Player.MovePawn: the step count is a natural number. Python's
  `range` over a negative count is not modelled; every caller passes 6.
- Games.Game.TryToBitPawn: which shared cell is captured is left open,
  because the source takes the first element of a Python set.
- FieldSize.IsDigit: only ASCII digits are modelled. Python's `isdigit`
  also accepts other Unicode digits.
- `Player.get_pawns`, `get_pawns_in_house` and `get_blocked_cells` are
  read-only getters. The model reads the fields directly.
- The blocked-cell list is modelled as a set. The source only ever asks
  whether a cell is in it, so duplicates do not matter.
- `int((n - 1) / 2)` goes through floating point in the source; the model
  uses exact truncating division, which agrees for every size the game
  accepts.
- Board.SetMatrix: modelled for odd sizes of at least 5, the only sizes
  the game accepts. For size 3, the source builds five rows.
- `set_size` (the input loop) and the top-level loop in `game` and `main`
  are not part of this model. `Game` requires a size that
  `size_is_correct` accepts.
- The source's `turn` string is `""` until the first change of turn. The
  model writes this as `None`.
