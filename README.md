# Chess rules engine — a Dafny model

This project models the rules core of a small two-player chess game written in
Python with pygame. The core decides which squares a piece may move to, whether
a king is in check or mated, and how a move changes the board and the players'
capture tallies. Rendering, windowing and event dispatch are not modelled.

The board is an 8×8 grid indexed `[file][rank]`. Each square is empty or holds a
piece: a variant (Pawn, Rook, Bishop, Knight, Queen, King), an owner (White or
Black), and a move counter. Players are identified with their colour.

The modules follow the program's files:

- `chess.dfy` (`Chess`): pieces, squares, the grid, the bounds-checked lookup
  `get`, the start layout `get_from_start_set`, the ownership rule of
  `Cell.__init__`, board scan order, and a `Result` type for the ways the code
  can fail.
  - `NoKing`: `get_king` raises.
  - `NoAttacker`: `_get_direction` is handed a `None` attacker.
  - `OffBoardLookup`: a `.figure` is read from an off-board `get`.
  - `BadName`: `Player` or `add_defeated` raises.
  - `OutOfFuel`: the recursion bound is exhausted.
- `rays.dfy` (`Rays`): `_get_direction`, the per-variant direction and max-step
  tables, and the shared ray walk `_precalculate_allowed_pos`.
- `moves.dfy` (`Moves`):
  - each piece's `calc_allowed_positions` (raw moves);
  - the king's enemy-threat set and castling (`check_roque`);
  - `_is_attacked`.
- `checks.dfy` (`Checks`): `get_checked_positions`, with its sign-direction walk,
  plus `get_king`, `allowed_positions` and `is_mated`.
- `session.dfy` (`Session`): the `Player` class and its capture tally, and the
  `GameSession` move counter with `next_player`.
- `board.dfy` (`Boards`): the `Board` class, `move_figure`, and the
  move-controller branch of `_mouse_down`, with the click replaced by an
  origin and a destination coordinate.

Two parts of the code are read-only computations over the board, and they are
modelled in two layers: move generation and check analysis in `figures.py`, and
the lookups in `game_objects.py`.

- Pure functions over an immutable grid value state what each computation yields.
- Methods transcribe the source's loops and are proved equal to those functions:
  - the ray walk;
  - the threat scan;
  - the `_is_attacked` scan;
  - the checked-positions scan and its `while` walk;
  - the filter loops of `allowed_positions`;
  - the union loop of `is_mated`;
  - `get_king`;
  - the `check_roque` blocking loop.

The state-changing parts are imperative. `Board` holds the grid as a field, and
`MoveFigure`, `MoveRook`, `Execute` and `Play` reassign it. `Player.defeated` is
a map that `AddDefeated` updates. `GameSession.movesCount` is the counter that
`Play` increments.

King castling calls `_is_attacked` on the rook. That calls the enemy king's
`calc_allowed_positions`, which may evaluate castling again, without end. The
model bounds this mutual recursion with a `fuel` parameter, and an exhausted
bound is the `OutOfFuel` result.

Several behaviours of the code are reproduced as written rather than corrected:

- **Pawn or knight check.** When a pawn or knight checks, `get_checked_positions`
  sets the line to `pos.intersection(self.position)`. That intersects a set of
  coordinate pairs with the king's two integers, so the line is always empty.
  It also discards any line gathered earlier in the scan (`Checks.CheckStep`).
- **The slider walk.** The walk from a slider toward the king follows only the
  sign vector from the attacker to the king, whatever the attacker's variant.
  - It passes through the king and through any defending piece.
  - It stops only on a piece of the attacker's own colour or at the board edge.
  - It includes the first off-board square (`Checks.SliderWalk`).

  So the line is not "the squares between the attacker and the king". It can
  run past the king to the board edge.
- **Squares behind the attacker.** A later checker in scan order can add
  squares lying behind an earlier one. For example: black rooks at (0,0) and
  (0,5), and the white king at (0,3). The rook at (0,0) walks (0,1)…(0,5): it
  passes through the other rook, which is of its own colour, and stops on it.
  So "the attacker's own square is never in the line" does not hold of the code
  (`Checks.AttackerSquareInLine` proves it on exactly that board).
  - What holds, and is proved, is that the recorded attacker's square is not on
    the recorded attacker's own walk.
- **Pawn forward squares.** These are not bounds-checked, so a pawn on the last
  rank lists an off-board square. `is_mated` then reads `.figure` of that `None`
  cell, which is the `OffBoardLookup` failure of `Checks.Mated`.
- **Castling** never checks that the piece on the rook square is a rook of the
  king's colour.
- **Double step.** A pawn may advance two squares whenever the start layout has
  a pawn on its current square, whatever its move count.

## Model

| member | source | states |
|---|---|---|
| Chess.Get | game_objects.py:167-170 | a square is returned exactly for on-board coordinates |
| Chess.StartTag | game_objects.py:113-122 | the start layout: nothing off the board; pawns on ranks 1 and 6; no piece on ranks 2–5; a King exactly at (4,0) and (4,7) |
| Chess.InitialOwner | game_objects.py:62 | a start piece belongs to White exactly when its rank is at least half the board size |
| Chess.InitialGrid | game_objects.py:128-135 | a square of the initial board is occupied iff the start layout names a piece there, and then holds that variant with the ownership rule's colour and zero moves |
| Chess.Put | game_objects.py:232-233 | writing one square changes that square and no other |
| Rays.Sign | figures.py:9-12 | the sign of an integer: 0, 1 or -1 exactly when it is zero, positive or negative |
| Rays.Direction | figures.py:6-14 | each component is in {-1,0,1} and is zero exactly when the coordinates agree; the vector points from b toward a; it is (0,0) exactly when a == b |
| Rays.Forward | figures.py:129 | the pawn direction: -1 for White, +1 for Black |
| Rays.Directions | figures.py:130-205 | every non-knight direction is a unit step; every knight direction is an L-jump of squared length 5 |
| Rays.MaxStep | figures.py:131-205 | knights and kings step once; rooks, bishops and queens travel the board size |
| Rays.RayMembership | figures.py:22-30 | a square is on a ray iff it is on the board at most max-step steps along the direction with every earlier square empty; so the first occupied square is included and ends the ray, and no off-board square is included |
| Rays.RayWalkMembership | figures.py:17-31 | a square is reached by the walk iff it is reached along one of the given directions |
| Rays.RayWalk | figures.py:17-31 | every square the walk returns is on the board |
| Rays.PrecalculateAllowedPos | figures.py:17-31 | the nested direction and step loops compute exactly the union of the rays |
| Rays.Ray | figures.py:22-30 | definition of one direction's steps; every square it returns is on the board, and its meaning is stated by Rays.RayMembership |
| Rays.ShiftScale | figures.py:24-25 | k steps along a direction with components in {-1,0,1} move each coordinate by k in that component's sign |
| Rays.RayShape | figures.py:22-30 | every square a ray reaches lies k ≥ 1 steps along its direction, within the step limit |
| Rays.SliderReach | figures.py:22-30 | on a board where only the piece stands, the ray toward any square on its file, rank or diagonal reaches that square |
| Rays.SliderSound | figures.py:158-197 | whatever a rook's, bishop's or queen's walk reaches is on the board and on its lines: the rook's file or rank, the bishop's diagonals, the queen's both |
| Rays.SliderComplete | figures.py:158-197 | on a board where only the piece stands, a rook, bishop or queen walk reaches every on-board square of its lines |
| Rays.JumpWalk | figures.py:17-31 | a one-step walk reaches exactly the on-board squares one table entry away |
| Rays.KnightRange | figures.py:178-186 | a knight's walk reaches exactly the on-board squares two files and one rank, or one file and two ranks, away |
| Rays.KingRange | figures.py:200-205 | a king's one-step walk reaches exactly the on-board squares at most one file and one rank away, other than its own |
| Rays.EmptyBoardRange | figures.py:158-205 | on a board where only the piece stands, every non-pawn piece's direction table and step limit give exactly its geometric range: rook along file and rank, bishop along diagonals, queen both, knight L-jumps, king neighbouring squares |
| Moves.BasicMoves | figures.py:164-197 | definition: the pawn rule, or the ray walk over the piece's direction table (see Rays.EmptyBoardRange and Moves.RawMoves) |
| Moves.BasicAllowedPositions | figures.py:164-197 | the non-king calc_allowed_positions computes exactly the raw-move function |
| Moves.PawnMoves | figures.py:133-155 | forward-one is added iff that square holds no piece; forward-two iff both forward squares hold none and the start layout has a Pawn at the pawn's square; each forward diagonal iff it holds a piece; nothing else is added |
| Moves.PawnForwardLeavesBoard | figures.py:147-151 | a White pawn on rank 0 lists the off-board square in front of it |
| Moves.ThreatOf | figures.py:213-227 | definition of one enemy piece's contribution to occupied_by_other; its meaning is stated by Moves.ThreatOfShape |
| Moves.PieceThreat | figures.py:213-227 | the branch of the king's loop for one enemy piece adds exactly that piece's threat set |
| Moves.ThreatOfShape | figures.py:213-227 | an enemy pawn threatens only its two on-board forward diagonals; an enemy king threatens only adjacent one-step squares; any other enemy piece threatens its full raw move set |
| Moves.Threats | figures.py:209-227 | definition of occupied_by_other as a scan of the board; its meaning is stated by Moves.ThreatsMembership |
| Moves.ThreatScanFile | figures.py:210-227 | one file of the scan adds exactly what the scan function adds for that file |
| Moves.ThreatsMembership | figures.py:209-227 | a square is in the king's threat set iff some enemy piece threatens it |
| Moves.Castling | figures.py:250-251 | the two castling sides, queen side (rook at file−4) and king side (rook at file+3); the only failure is running out of fuel |
| Moves.Roque | figures.py:234-248 | castling toward one side adds only the destination square; it adds it iff the rook square, path, destination and rook move count allow it and the rook square is not attacked; fuel is the only failure |
| Moves.KingMoves | figures.py:207-253 | no result square is in the enemy threat set; every unthreatened one-step square is a result; a king that has moved gets exactly its unthreatened one-step squares |
| Moves.RawMoves | figures.py:164-197 | every non-king piece's raw moves are its pawn rule or its ray walk and cannot fail |
| Moves.IsAttackedFrom | figures.py:34-41 | the i/j scan from (i, j) on; it fails only by running out of fuel |
| Moves.IsAttacked | figures.py:34-41 | _is_attacked fails only by running out of fuel; its meaning is stated by Moves.IsAttackedMeaning |
| Moves.IsAttackedMeaning | figures.py:34-41 | the attack test is true iff some enemy piece's raw moves contain the square; false iff every enemy's raw moves exclude it; it fails only when an enemy's raw moves fail |
| Moves.KingAvoidsThreats | figures.py:253 | a square the king may move to is threatened by no enemy piece |
| Moves.CastleRight | figures.py:229-251 | file+2 is a king move iff the king has not moved, a Rook with no moves stands at file+3, files +1 and +2 are empty, the destination is on the board, the rook square is not attacked, and the destination is not threatened |
| Moves.CastleLeft | figures.py:229-251 | file−2 is a king move iff the king has not moved, a Rook with no moves stands at file−4, files −3 to −1 are empty, the destination is on the board, the rook square is not attacked, and the destination is not threatened |
| Moves.KingJump | figures.py:229-253 | any non-adjacent king move is one of the two castling destinations, with that side's rook and path ready |
| Moves.PathBlocked | figures.py:236-245 | the blocking loop of check_roque reports exactly whether a piece stands on the castling path |
| Moves.IsAttackedScan | figures.py:34-41 | the i/j loop returns exactly the attack function's result |
| Moves.ThreatScan | figures.py:209-227 | the scan loop builds exactly the threat set |
| Moves.CheckRoque | figures.py:234-248 | the check_roque step computes exactly the castling function |
| Moves.KingAllowedPositions | figures.py:207-253 | the king's move loop computes exactly the king-move function |
| Moves.CalcAllowedPositions | figures.py:133-253 | the dispatch to each piece's calc_allowed_positions computes exactly its raw moves |
| Checks.SliderWalk | figures.py:268-278 | definition of the sign walk; its meaning is stated by Checks.WalkMembership and Checks.WalkAhead |
| Checks.WalkAhead | figures.py:270-278 | the walk only moves forward along its direction, so it never returns to the attacker's own square |
| Checks.WalkMembership | figures.py:270-278 | a square is on the walk iff it is m ≥ 1 steps along the direction with every earlier square on the board and free of the walker's own pieces (so the first off-board square and the first own piece are included) |
| Checks.RayInWalk | figures.py:267-282 | every square a slider's ray reaches lies on the sign walk toward it, in the ray's direction |
| Checks.WalkLine | figures.py:268-278 | the while loop builds exactly the walk |
| Checks.CheckStep | figures.py:260-282 | definition of one cell of the scan; its meaning is stated by Checks.CheckStepMeaning |
| Checks.CheckedPositions | figures.py:255-284 | definition of the whole scan; its meaning is stated by Checks.CheckedPositionsMeaning |
| Checks.CheckStepMeaning | figures.py:260-282 | one scanned square leaves the result alone unless it gives check; a pawn or knight check resets the line to empty; a slider check adds its walk; either records the attacker |
| Checks.CheckedPositionsMeaning | figures.py:255-284 | the attacker is the last checker in scan order (none iff no piece gives check); a pawn or knight attacker leaves the line empty; a slider attacker's walk is in the line and does not contain its own square; every line square is on a checking slider's walk; with no pawn or knight checking, the line is the union of the checking sliders' walks |
| Checks.LowRookChecks | figures.py:268-282 | with black rooks on (0,0) and (0,5) and the white king on (0,3), the rook on (0,0) gives check and its walk reaches (0,5) |
| Checks.HighRookChecks | figures.py:268-282 | on that board the rook on (0,5) gives check |
| Checks.OnlyRooksCheck | figures.py:261-262 | on that board the only enemies of the white king are the two rooks |
| Checks.AttackerSquareInLine | figures.py:255-284 | on that board the recorded attacker is the rook on (0,5), and its own square is in the line |
| Checks.AttackerIsChecker | figures.py:262-282 | every enemy piece other than a King whose raw moves reach the king is recorded as a checker |
| Checks.NoAttackerMeansKing | figures.py:105-110 | a king in check with no recorded attacker is attacked by the enemy King |
| Checks.GetCheckedPositions | figures.py:255-284 | the scan loops compute exactly the checked-positions function |
| Checks.FindKing | game_objects.py:159-165 | returns the first king of that colour in board order, if any; fails with NoKing exactly when there is none |
| Checks.CheckedScanFile | figures.py:259-283 | one file of the scan leaves the scan function's result unchanged |
| Checks.GetKing | game_objects.py:159-165 | the nested loop returns exactly the first king, or NoKing |
| Checks.Defenders | figures.py:98-103 | definition: the line squares holding a friendly non-king piece, the set whose size the defender loop counts (Checks.DefenderCount) |
| Checks.DefenderCount | figures.py:98-103 | the counting loop returns the number of defenders |
| Checks.TowardAttacker | figures.py:109-115 | definition: the candidates sharing the king→attacker sign direction with a smaller file or rank than the king; what it leaves a blocking piece is stated by Checks.BlockOrCapture |
| Checks.FilterTowardAttacker | figures.py:109-115 | the filtering loop computes exactly that set |
| Checks.Filter | figures.py:97-123 | definition of the check/pin filter; its meaning is stated by Checks.KingInCheckLeavesLine, Checks.BlockOrCapture and Checks.PinnedPiece |
| Checks.Allowed | figures.py:93-123 | allowed_positions fails only with NoKing, NoAttacker or OutOfFuel |
| Checks.AllowedWithinRaw | figures.py:93-123 | the allowed moves are always a subset of the raw moves |
| Checks.KingInCheckLeavesLine | figures.py:105-107 | a king in check gets its raw moves minus the line set, and so none of the attacker's walk |
| Checks.BlockOrCapture | figures.py:105-117 | a non-king piece whose king is in check: it fails with NoAttacker iff no attacker was recorded; otherwise its moves are exactly the raw moves in the line or on the attacker that share the king→attacker direction and have a smaller file or rank; against a pawn or knight, at most the attacker's square |
| Checks.PinnedPiece | figures.py:118-123 | a piece whose king is not in check, standing on a non-empty line with fewer than two friendly non-king pieces on it, is restricted to its raw moves within line ∪ {attacker}; any other piece keeps its raw moves |
| Checks.NoAttackerOnlyFromKing | figures.py:105-110 | allowed_positions fails with NoAttacker only when an enemy King attacks the piece's king |
| Checks.FilterMoves | figures.py:97-123 | the filter loops compute exactly the filter function |
| Checks.AllowedPositions | figures.py:93-123 | the property's loops compute exactly the allowed moves |
| Checks.SideMoves | figures.py:294-299 | the union of the side's allowed moves fails only with NoKing, NoAttacker or OutOfFuel |
| Checks.SideMovesFile | figures.py:294-299 | one file of the union loop: on failure it returns the union function's failure; otherwise it leaves the union function's result unchanged |
| Checks.SideMovesMeaning | figures.py:294-299 | the union loop succeeds iff every friendly piece's allowed moves succeed, and then holds exactly their union |
| Checks.Mated | figures.py:290-304 | an unattacked king is never mated, and a mated king is attacked |
| Checks.MatedMeansNoEscape | figures.py:290-304 | when mated, every friendly piece's allowed moves land only on friendly-occupied squares |
| Checks.NotMatedHasEscape | figures.py:290-304 | a checked king that is not mated has a friendly piece with an allowed move to an on-board square its side does not occupy |
| Checks.OffBoardFromAllowed | figures.py:300-301 | the OffBoardLookup failure comes from an allowed move to an off-board square |
| Checks.IsMated | figures.py:290-304 | the loops of is_mated compute exactly the mate function |
| Boards.MovedGrid | game_objects.py:224-234 | no change when the origin is empty; otherwise the origin is emptied, and the destination holds fig_type (or the origin's variant) with the same owner and the move count plus one; every other square is unchanged |
| Boards.Capture | game_objects.py:227-229 | at most one capture, recorded exactly when origin and destination are both occupied, named after the captured variant, and always an allowed tally name |
| Boards.Bump | game_objects.py:209 | the piece on the square gets one more move; every other square is unchanged |
| Boards.RecordAll | game_objects.py:227-229 | definition: each capture name recorded in turn; its properties are Boards.RecordAllKeepsGoodTally and Boards.RecordAllAppend |
| Boards.RecordAllKeepsGoodTally | game_objects.py:227-229 | recording allowed names keeps every tally count at least one and every name allowed |
| Boards.RecordAllAppend | game_objects.py:208-217 | recording two capture lists in turn equals recording their concatenation |
| Boards.Perform | game_objects.py:194-217 | executing a move fails only with OffBoardLookup, and otherwise yields a valid board |
| Boards.PromotionMakesQueen | game_objects.py:195-197 | a pawn landing on rank 0 or 7 becomes a Queen of its owner with one more move; the origin is emptied and nothing else changes |
| Boards.PlainMoveCarriesPiece | game_objects.py:217 | any other non-castling move carries the piece with one more move, empties the origin, and changes nothing else |
| Boards.AllowedCastleReady | figures.py:229-251 | an allowed two-file king move has its rook square on the board and occupied, its destination two files away, and both the rook's landing square and the destination empty |
| Boards.CastlingMovesRook | game_objects.py:198-217 | an allowed castling move puts the rook on file±1 with one more move, puts the king on the destination with two more moves, empties both origins, captures nothing, and changes no other square |
| Boards.Click | game_objects.py:186-222 | a completed move always leaves a valid board |
| Boards.ClickMovesOnlyLegally | game_objects.py:190-194 | a move happens only for a piece of the side to move, onto a square its side does not hold, that is among its allowed moves |
| Boards.ClickGating | game_objects.py:190-194 | clicking from a square not holding the mover's piece does nothing; a destination outside the allowed moves does nothing |
| Boards.ClickFailsOnlyInAllowed | game_objects.py:190-217 | a click fails only with a failure of allowed_positions |
| Boards.ClickIsPerform | game_objects.py:194-217 | a completed click is the execution of an allowed move from an occupied origin |
| Boards.ClickCaptures | game_objects.py:224-229 | a completed move records the captured variant's name exactly when the destination was occupied |
| Boards.Board.MoveFigure | game_objects.py:224-234 | the grid becomes the moved grid; the side to move has the capture recorded; the other tally is unchanged |
| Boards.Board.MoveRook | game_objects.py:199-209 | an off-board rook square fails with nothing changed; otherwise the rook moves to its landing square and the king's counter is bumped |
| Boards.Board.Execute | game_objects.py:194-217 | the board and tallies become exactly those of the executed move; on failure nothing changes |
| Boards.Board.Play | game_objects.py:186-222 | the result matches the click function; a completed move sets the grid to its outcome, advances the move counter by one, and records its captures for the side that moved; otherwise nothing changes |
| Session.VariantNamesAllowed | game.py:159 | every variant's class name is an allowed tally name |
| Session.PlayerType | game.py:89-91 | a player type is accepted exactly for "white" and "black"; anything else fails with BadName |
| Session.Count | game.py:167-171 | 0 for a name never recorded, otherwise the stored count |
| Session.Record | game.py:162-165 | recording adds the name to the tally's keys |
| Session.RecordCounts | game.py:162-165 | recording raises that name's count by exactly one, starting at one, and leaves every other count unchanged |
| Session.RecordKeepsGoodTally | game.py:158-165 | recording an allowed name keeps every stored count at least one and every name allowed |
| Session.Player.AddDefeated | game.py:158-165 | a name outside the six piece names fails with BadName and leaves the tally unchanged; otherwise the name is recorded |
| Session.Player.GetDefeated | game.py:167-171 | 0 for a name never recorded; otherwise exactly the stored count, which is at least one |
| Session.NextColor | game.py:49-51 | White exactly when the move count is even |
| Session.TurnsAlternate | game.py:49-51 | each move passes the turn to the other colour, and two moves bring it back |
| Session.GameSession.NextPlayer | game.py:49-51 | the white player on an even move count, the black player on an odd one |
| Session.GameSession.NextPlayerColor | game.py:49-51 | the player to move has colour NextColor(moves_count) |

## Left out

- Rendering, pygame surfaces and images, labels, the window, event polling, collider hit-testing, the `GameEvent` dispatcher and the colour constants (`utility.py`). These are I/O and presentation.
- `Player.update` and `Player.color`, which draw the banners and the tally display, are presentation.
- Selection bookkeeping in `_mouse_down` (`__selected_cell`, `__markers`, game_objects.py:187-192, 215, 220-222) is replaced by an explicit origin and destination.
  - Clicking a friendly piece is a reselection: a click without a move.
  - The marker set is recomputed from the origin on each click rather than carried between clicks.
  - So the model does not capture a stale marker set surviving a click on an enemy piece.
- Boards.Click: an `allowed_positions` failure on a reselected friendly piece is reported as the click's failure. No move is made.
- Moves.KingMoves and everything above it: the castling ↔ `_is_attacked` recursion is bounded by a `fuel` parameter.
  - Fuel drops by one each time castling tests the rook square.
  - An exhausted bound is `OutOfFuel`, where the code would recurse without end.
  - Nothing is claimed about how much fuel a given board needs.
- Board size is fixed at 8. The code derives it from the 8×8 start layout.
- Players are identified with their colour. The code compares `Player` objects, and there are exactly two of them.
- Exceptions are `Result` failures: the `RuntimeError`s of `get_king`, `Player.__init__`, `add_defeated` and `move_rook`, and the `TypeError`/`AttributeError` of a `None` attacker or cell.
- Session.PlayerType: the `Player` constructor's validation is modelled on the type string alone. The `Player` class is built from a colour, so it cannot hold an invalid type.
- Boards.Board.MoveFigure: the code builds the new piece with the old counter and then increments it in place. The model places the piece with the incremented counter in one step. The state afterwards is the same.
- Boards.Board.MoveRook requires the rook's landing square (file±1) to be on the board. It always is when the castling destination (file±2) is on the board, which an allowed castling move guarantees. An off-board rook origin is modelled as `OffBoardLookup`.
- Boards.Perform: in the castling branch, a rook square off the board is `OffBoardLookup`. This branch is unreachable from an allowed move (Boards.AllowedCastleReady).
- Boards.Perform: the second `move_figure` call after a promotion moves from an emptied square, so it does nothing, and this function leaves it out. Boards.Board.Execute does make the call, as a no-op.
- `GameSession.__init__`/`start` and the `moves_count` display are not modelled, beyond a constructor with two fresh players and a zero counter.
