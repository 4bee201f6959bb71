/** The board (game_objects.py): the grid of cells the game is played on,
    move execution with capture bookkeeping, and the move controller that
    turns a selected piece and a clicked destination into a move. */
module Boards {
  import opened Chess
  import opened Rays
  import opened Moves
  import opened Checks
  import opened Session

  // ---------------------------------------------------------------------
  // move_figure as a value

  /** The grid after move_figure(from, to, figType): nothing happens when
      `from` is empty; otherwise `from` is emptied and `to` receives a piece
      of figType (or the moved piece's own variant) of the same player with
      one more move on its counter. */
  function MovedGrid(g: Grid, from: Pos, to: Pos, figType: Option<Variant>): (r: Grid)
    requires ValidGrid(g) && InBounds(from) && InBounds(to) && from != to
    ensures ValidGrid(r)
    ensures !HasFigure(g, from) ==> r == g
    ensures HasFigure(g, from) ==>
      && !HasFigure(r, from)
      && HasFigure(r, to)
      && At(r, to).variant == (if figType.Some? then figType.value else At(g, from).variant)
      && At(r, to).player == At(g, from).player
      && At(r, to).moves == At(g, from).moves + 1
    ensures forall q :: q != from && q != to ==> Get(r, q) == Get(g, q)
  {
    if !HasFigure(g, from) then g
    else
      var moved := At(g, from);
      var variant := if figType.Some? then figType.value else moved.variant;
      var placed := Put(g, to, Occupied(Piece(variant, moved.player, moved.moves + 1)));
      Put(placed, from, Empty)
  }

  /** The capture move_figure records: the captured piece's name when a
      piece moves onto an occupied square, nothing otherwise. */
  function Capture(g: Grid, from: Pos, to: Pos): (r: seq<string>)
    requires ValidGrid(g)
    ensures |r| <= 1
    ensures |r| == 1 <==> HasFigure(g, from) && HasFigure(g, to)
    ensures |r| == 1 ==> r[0] == VariantName(At(g, to).variant) && r[0] in FigureNames
  {
    if HasFigure(g, from) && HasFigure(g, to) then
      VariantNamesAllowed(At(g, to).variant);
      [VariantName(At(g, to).variant)]
    else []
  }

  /** add_defeated for each name in turn. */
  function RecordAll(tally: map<string, nat>, names: seq<string>): map<string, nat>
    decreases |names|
  {
    if names == [] then tally else RecordAll(Record(tally, names[0]), names[1..])
  }

  /** Recording a list of allowed names keeps a tally good. */
  lemma {:induction false} RecordAllKeepsGoodTally(tally: map<string, nat>, names: seq<string>)
    requires GoodTally(tally)
    requires forall i :: 0 <= i < |names| ==> names[i] in FigureNames
    ensures GoodTally(RecordAll(tally, names))
    decreases |names|
  {
    if names != [] {
      RecordKeepsGoodTally(tally, names[0]);
      RecordAllKeepsGoodTally(Record(tally, names[0]), names[1..]);
    }
  }

  /** The King counter bump of move_rook: one more move on the piece at p. */
  function Bump(g: Grid, p: Pos): (r: Grid)
    requires ValidGrid(g)
    ensures ValidGrid(r)
    ensures HasFigure(g, p) ==> HasFigure(r, p) && At(r, p) == At(g, p).(moves := At(g, p).moves + 1)
    ensures forall q :: q != p ==> Get(r, q) == Get(g, q)
    ensures !HasFigure(g, p) ==> r == g
  {
    if HasFigure(g, p) then
      var pc := At(g, p);
      Put(g, p, Occupied(pc.(moves := pc.moves + 1)))
    else g
  }

  // ---------------------------------------------------------------------
  // The move controller (_mouse_down) as a value

  /** What a completed move leaves behind: the new grid and the names of the
      pieces it captured, in the order move_figure recorded them. */
  datatype Outcome = Outcome(grid: Grid, captured: seq<string>)

  /** A King move of more than one file to the right (+1) or left (-1), 0 otherwise. */
  function CastleSide(origin: Pos, dest: Pos): int
  {
    if dest.x - origin.x > 1 then 1 else if dest.x - origin.x < -1 then -1 else 0
  }

  /** Where move_rook takes the rook from, and to: +3 to +1 on the right,
      -4 to -1 on the left. */
  function RookFrom(origin: Pos, side: int): Pos
  {
    if side == 1 then FileOffset(origin, 3) else FileOffset(origin, -4)
  }

  function RookTo(origin: Pos, side: int): Pos
  {
    if side == 1 then FileOffset(origin, 1) else FileOffset(origin, -1)
  }

  /** The move branch of _mouse_down, once the destination is among the
      selected piece's allowed squares: a pawn reaching the first or last
      rank becomes a Queen; a King moving two files first has move_rook
      relocate the rook and bump the King's counter; then the piece moves.
      A rook square off the board makes move_rook fail. */
  function Perform(g: Grid, origin: Pos, dest: Pos): (r: Result<Outcome>)
    requires ValidGrid(g) && InBounds(origin) && InBounds(dest) && origin != dest
    requires HasFigure(g, origin)
    ensures r.Err? ==> r.error == OffBoardLookup
    ensures r.Ok? ==> ValidGrid(r.value.grid)
  {
    var pc := At(g, origin);
    if pc.variant == Pawn && (dest.y == 0 || dest.y == Size - 1) then
      Ok(Outcome(MovedGrid(g, origin, dest, Some(Queen)), Capture(g, origin, dest)))
    else if pc.variant == King && CastleSide(origin, dest) != 0 then
      var side := CastleSide(origin, dest);
      var rookFrom, rookTo := RookFrom(origin, side), RookTo(origin, side);
      if !InBounds(rookFrom) then Err(OffBoardLookup)
      else
        var rookMoved := MovedGrid(g, rookFrom, rookTo, None);
        var bumped := Bump(rookMoved, origin);
        Ok(Outcome(MovedGrid(bumped, origin, dest, None),
                   Capture(g, rookFrom, rookTo) + Capture(bumped, origin, dest)))
    else
      Ok(Outcome(MovedGrid(g, origin, dest, None), Capture(g, origin, dest)))
  }

  /** A click on `dest` while the piece on `origin` is selected, with
      movesCount moves played: None when no move is made, the outcome of the
      move otherwise. Only a piece of the player to move is selectable, and
      the selection's allowed squares are computed when it is selected.
      Clicking another piece of the player to move selects it instead. */
  function Click(g: Grid, movesCount: nat, origin: Pos, dest: Pos, fuel: nat): (r: Result<Option<Outcome>>)
    requires ValidGrid(g) && InBounds(origin) && InBounds(dest)
    ensures r.Ok? && r.value.Some? ==> ValidGrid(r.value.value.grid)
  {
    var mover := NextColor(movesCount);
    if origin == dest || !IsFriend(g, origin, mover) then Ok(None)
    else
      var markers :- Allowed(g, origin, fuel);
      if IsFriend(g, dest, mover) then
        var reselected :- Allowed(g, dest, fuel);
        Ok(None)
      else if dest !in markers then Ok(None)
      else
        var outcome :- Perform(g, origin, dest);
        Ok(Some(outcome))
  }

  // ---------------------------------------------------------------------
  // What the controller guarantees

  /** Only the player to move moves, only their own piece, and only to one
      of its allowed squares; and a piece never lands on a square of its
      own side. */
  lemma ClickMovesOnlyLegally(g: Grid, movesCount: nat, origin: Pos, dest: Pos, fuel: nat)
    requires ValidGrid(g) && InBounds(origin) && InBounds(dest)
    requires Click(g, movesCount, origin, dest, fuel).Ok? && Click(g, movesCount, origin, dest, fuel).value.Some?
    ensures IsFriend(g, origin, NextColor(movesCount))
    ensures !IsFriend(g, dest, NextColor(movesCount))
    ensures Allowed(g, origin, fuel).Ok? && dest in Allowed(g, origin, fuel).value
  {
  }

  /** A click that is not a legal move of the player to move changes nothing. */
  lemma ClickGating(g: Grid, movesCount: nat, origin: Pos, dest: Pos, fuel: nat)
    requires ValidGrid(g) && InBounds(origin) && InBounds(dest)
    ensures !IsFriend(g, origin, NextColor(movesCount)) ==> Click(g, movesCount, origin, dest, fuel) == Ok(None)
    ensures (IsFriend(g, origin, NextColor(movesCount)) && origin != dest
             && Allowed(g, origin, fuel).Ok? && !IsFriend(g, dest, NextColor(movesCount))
             && dest !in Allowed(g, origin, fuel).value)
      ==> Click(g, movesCount, origin, dest, fuel) == Ok(None)
  {
  }

  /** move_rook never looks off the board for an allowed move: a King move
      of two files is a castling hop, whose rook stands on the board. So a
      click fails only when computing the allowed squares fails. */
  lemma ClickFailsOnlyInAllowed(g: Grid, movesCount: nat, origin: Pos, dest: Pos, fuel: nat)
    requires ValidGrid(g) && InBounds(origin) && InBounds(dest)
    ensures var r := Click(g, movesCount, origin, dest, fuel);
      r.Err? ==> r.error in {NoKing, NoAttacker, OutOfFuel}
  {
    var mover := NextColor(movesCount);
    if origin != dest && IsFriend(g, origin, mover) && Allowed(g, origin, fuel).Ok?
      && !IsFriend(g, dest, mover) && dest in Allowed(g, origin, fuel).value
      && At(g, origin).variant == King && CastleSide(origin, dest) != 0
    {
      AllowedCastleReady(g, origin, dest, fuel);
    }
  }

  /** A click that makes a move is the move branch applied to an allowed
      destination of a selectable piece. */
  lemma ClickIsPerform(g: Grid, movesCount: nat, origin: Pos, dest: Pos, fuel: nat)
    requires ValidGrid(g) && InBounds(origin) && InBounds(dest)
    requires Click(g, movesCount, origin, dest, fuel).Ok? && Click(g, movesCount, origin, dest, fuel).value.Some?
    ensures origin != dest && HasFigure(g, origin)
    ensures Allowed(g, origin, fuel).Ok? && dest in Allowed(g, origin, fuel).value
    ensures Perform(g, origin, dest).Ok?
    ensures Click(g, movesCount, origin, dest, fuel).value.value == Perform(g, origin, dest).value
  {
  }

  /** A pawn reaching the first or last rank is replaced by a Queen of its
      player, carrying the pawn's move counter plus one. */
  lemma PromotionMakesQueen(g: Grid, origin: Pos, dest: Pos)
    requires ValidGrid(g) && InBounds(origin) && InBounds(dest) && origin != dest
    requires HasFigure(g, origin) && At(g, origin).variant == Pawn && (dest.y == 0 || dest.y == Size - 1)
    ensures Perform(g, origin, dest).Ok?
    ensures var r := Perform(g, origin, dest).value.grid;
      && !HasFigure(r, origin)
      && HasFigure(r, dest)
      && At(r, dest) == Piece(Queen, At(g, origin).player, At(g, origin).moves + 1)
      && forall q :: q != origin && q != dest ==> Get(r, q) == Get(g, q)
  {
  }

  /** Any other move that is not a castling hop carries the piece itself to
      the destination with one more move counted. */
  lemma PlainMoveCarriesPiece(g: Grid, origin: Pos, dest: Pos)
    requires ValidGrid(g) && InBounds(origin) && InBounds(dest) && origin != dest && HasFigure(g, origin)
    requires !(At(g, origin).variant == Pawn && (dest.y == 0 || dest.y == Size - 1))
    requires !(At(g, origin).variant == King && CastleSide(origin, dest) != 0)
    ensures Perform(g, origin, dest).Ok?
    ensures var r := Perform(g, origin, dest).value.grid;
      && !HasFigure(r, origin)
      && HasFigure(r, dest)
      && At(r, dest) == At(g, origin).(moves := At(g, origin).moves + 1)
      && forall q :: q != origin && q != dest ==> Get(r, q) == Get(g, q)
  {
  }

  /** An allowed King move of more than one file is a castling hop whose
      rook square is on the board and holds an unmoved Rook, with empty
      squares between it and the King. */
  lemma AllowedCastleReady(g: Grid, origin: Pos, dest: Pos, fuel: nat)
    requires ValidGrid(g) && InBounds(origin) && InBounds(dest) && HasFigure(g, origin)
    requires At(g, origin).variant == King && CastleSide(origin, dest) != 0
    requires Allowed(g, origin, fuel).Ok? && dest in Allowed(g, origin, fuel).value
    ensures var side := CastleSide(origin, dest);
      && InBounds(RookFrom(origin, side)) && HasFigure(g, RookFrom(origin, side))
      && dest == FileOffset(origin, 2 * side)
      && !HasFigure(g, RookTo(origin, side)) && !HasFigure(g, dest)
  {
    AllowedWithinRaw(g, origin, fuel);
    KingJump(g, origin, fuel, dest);
    if CastleSide(origin, dest) == 1 {
      assert !HasFigure(g, FileOffset(origin, 1)) && !HasFigure(g, FileOffset(origin, 2));
    } else {
      assert !HasFigure(g, FileOffset(origin, -1)) && !HasFigure(g, FileOffset(origin, -2));
    }
  }

  /** Castling: the rook moves from file +3 to +1 (right) or from file -4
      to -1 (left) with one more move counted, and the King reaches the
      destination with two more moves counted (move_rook's bump and the
      move itself); nothing is captured and no other square changes. */
  lemma CastlingMovesRook(g: Grid, origin: Pos, dest: Pos, fuel: nat)
    requires ValidGrid(g) && InBounds(origin) && InBounds(dest) && HasFigure(g, origin)
    requires At(g, origin).variant == King && CastleSide(origin, dest) != 0
    requires Allowed(g, origin, fuel).Ok? && dest in Allowed(g, origin, fuel).value
    ensures Perform(g, origin, dest).Ok?
    ensures var r := Perform(g, origin, dest).value;
      var side := CastleSide(origin, dest);
      var rookFrom, rookTo := RookFrom(origin, side), RookTo(origin, side);
      && HasFigure(g, rookFrom)
      && !HasFigure(r.grid, origin) && !HasFigure(r.grid, rookFrom)
      && HasFigure(r.grid, rookTo) && At(r.grid, rookTo) == At(g, rookFrom).(moves := At(g, rookFrom).moves + 1)
      && HasFigure(r.grid, dest) && At(r.grid, dest) == At(g, origin).(moves := At(g, origin).moves + 2)
      && r.captured == []
      && forall q :: q !in {origin, dest, rookFrom, rookTo} ==> Get(r.grid, q) == Get(g, q)
  {
    AllowedCastleReady(g, origin, dest, fuel);
    CastleOutcome(g, origin, dest);
  }

  /** The grid work of CastlingMovesRook, once the castling squares are known. */
  lemma CastleOutcome(g: Grid, origin: Pos, dest: Pos)
    requires ValidGrid(g) && InBounds(origin) && InBounds(dest) && HasFigure(g, origin)
    requires At(g, origin).variant == King && CastleSide(origin, dest) != 0
    requires var side := CastleSide(origin, dest);
      && InBounds(RookFrom(origin, side)) && HasFigure(g, RookFrom(origin, side))
      && dest == FileOffset(origin, 2 * side)
      && !HasFigure(g, RookTo(origin, side)) && !HasFigure(g, dest)
    ensures Perform(g, origin, dest).Ok?
    ensures var r := Perform(g, origin, dest).value;
      var side := CastleSide(origin, dest);
      var rookFrom, rookTo := RookFrom(origin, side), RookTo(origin, side);
      && !HasFigure(r.grid, origin) && !HasFigure(r.grid, rookFrom)
      && HasFigure(r.grid, rookTo) && At(r.grid, rookTo) == At(g, rookFrom).(moves := At(g, rookFrom).moves + 1)
      && HasFigure(r.grid, dest) && At(r.grid, dest) == At(g, origin).(moves := At(g, origin).moves + 2)
      && r.captured == []
      && forall q :: q !in {origin, dest, rookFrom, rookTo} ==> Get(r.grid, q) == Get(g, q)
  {
    var side := CastleSide(origin, dest);
    var rookFrom, rookTo := RookFrom(origin, side), RookTo(origin, side);
    var rookMoved := MovedGrid(g, rookFrom, rookTo, None);
    assert Get(rookMoved, origin) == Get(g, origin) && Get(rookMoved, dest) == Get(g, dest);
    var bumped := Bump(rookMoved, origin);
    assert Get(bumped, rookTo) == Get(rookMoved, rookTo) && Get(bumped, rookFrom) == Get(rookMoved, rookFrom);
    assert Get(bumped, dest) == Get(g, dest);
    var moved := MovedGrid(bumped, origin, dest, None);
    assert Get(moved, rookTo) == Get(bumped, rookTo) && Get(moved, rookFrom) == Get(bumped, rookFrom);
    assert Perform(g, origin, dest)
      == Ok(Outcome(moved, Capture(g, rookFrom, rookTo) + Capture(bumped, origin, dest)));
  }

  /** A click that makes a move records exactly one capture, under the
      captured piece's name, when the destination was occupied, and none
      otherwise (castling lands on empty squares). */
  lemma ClickCaptures(g: Grid, movesCount: nat, origin: Pos, dest: Pos, fuel: nat)
    requires ValidGrid(g) && InBounds(origin) && InBounds(dest)
    requires Click(g, movesCount, origin, dest, fuel).Ok? && Click(g, movesCount, origin, dest, fuel).value.Some?
    ensures var captured := Click(g, movesCount, origin, dest, fuel).value.value.captured;
      captured == if HasFigure(g, dest) then [VariantName(At(g, dest).variant)] else []
  {
    ClickIsPerform(g, movesCount, origin, dest, fuel);
    if At(g, origin).variant == King && CastleSide(origin, dest) != 0 {
      CastlingMovesRook(g, origin, dest, fuel);
      AllowedCastleReady(g, origin, dest, fuel);
    }
  }

  // ---------------------------------------------------------------------
  // The board object

  class Board {
    /** The cells' figures, indexed [file][rank]. */
    var field: Grid
    const gs: GameSession

    ghost predicate Valid()
      reads this, gs, gs.white, gs.black
    {
      ValidGrid(field) && gs.Valid()
    }

    /** Board.__init__: every cell holds the start layout's piece, owned
        according to its rank, with no moves counted. */
    constructor(gs: GameSession)
      requires gs.Valid()
      ensures this.gs == gs && field == InitialGrid()
      ensures Valid()
    {
      this.gs := gs;
      field := InitialGrid();
    }

    /** The player to move and the other one. */
    function Mover(): (p: Player)
      reads this, gs
      ensures p == gs.NextPlayer()
    {
      gs.NextPlayer()
    }

    function Waiting(): (p: Player)
      reads this, gs
      ensures p == gs.white || p == gs.black
      ensures p != Mover() || gs.white == gs.black
    {
      if gs.movesCount % 2 == 0 then gs.black else gs.white
    }

    /** Board.move_figure: the grid becomes MovedGrid, and a capture is
        recorded in the tally of the player to move. */
    method MoveFigure(from: Pos, to: Pos, figType: Option<Variant>)
      requires Valid() && InBounds(from) && InBounds(to) && from != to
      modifies this, gs.white, gs.black
      ensures Valid()
      ensures field == MovedGrid(old(field), from, to, figType)
      ensures Mover().defeated == RecordAll(old(Mover().defeated), Capture(old(field), from, to))
      ensures Waiting().defeated == old(Waiting().defeated)
    {
      if !HasFigure(field, from) {
        return;
      }
      if HasFigure(field, to) {
        var player := gs.NextPlayer();
        var name := VariantName(At(field, to).variant);
        VariantNamesAllowed(At(field, to).variant);
        var _ := player.AddDefeated(name);
      }
      var moved := At(field, from);
      var variant := if figType.Some? then figType.value else moved.variant;
      // the new figure takes over the counter, the origin is cleared, and
      // the counter is then incremented: folded into one placement here
      field := Put(field, to, Occupied(Piece(variant, moved.player, moved.moves + 1)));
      field := Put(field, from, Empty);
    }

    /** move_rook: the rook moves from file offset rookOff to newOff of the
        selected King's square, then the King's counter is bumped. A rook
        square off the board fails before anything changes. */
    method MoveRook(king: Pos, side: int) returns (r: Result<()>)
      requires Valid() && InBounds(king) && (side == 1 || side == -1)
      requires InBounds(RookTo(king, side))
      modifies this, gs.white, gs.black
      ensures Valid()
      ensures !InBounds(RookFrom(king, side)) ==> r == Err(OffBoardLookup) && field == old(field)
      ensures InBounds(RookFrom(king, side)) ==>
        && r == Ok(())
        && field == Bump(MovedGrid(old(field), RookFrom(king, side), RookTo(king, side), None), king)
      ensures Mover().defeated == RecordAll(old(Mover().defeated),
        if InBounds(RookFrom(king, side)) then Capture(old(field), RookFrom(king, side), RookTo(king, side)) else [])
      ensures Waiting().defeated == old(Waiting().defeated)
    {
      var rookFrom, rookTo := RookFrom(king, side), RookTo(king, side);
      if Get(field, rookFrom).None? {
        return Err(OffBoardLookup);
      }
      MoveFigure(rookFrom, rookTo, None);
      field := Bump(field, king);
      return Ok(());
    }

    /** The move branch of _mouse_down once the destination is allowed:
        promotion, or move_rook for a castling hop, then move_figure. The
        grid and the tally of the player to move become Perform's outcome;
        a failing move_rook changes nothing. */
    method Execute(origin: Pos, dest: Pos) returns (r: Result<()>)
      requires Valid() && InBounds(origin) && InBounds(dest) && origin != dest
      requires HasFigure(field, origin)
      modifies this, gs.white, gs.black
      ensures Valid()
      ensures var p := Perform(old(field), origin, dest);
        if p.Ok? then
          && r == Ok(())
          && field == p.value.grid
          && Mover().defeated == RecordAll(old(Mover().defeated), p.value.captured)
          && Waiting().defeated == old(Waiting().defeated)
        else
          && r == Err(p.error)
          && field == old(field)
          && gs.white.defeated == old(gs.white.defeated)
          && gs.black.defeated == old(gs.black.defeated)
    {
      ghost var g := field;
      ghost var tally := Mover().defeated;
      var pc := At(field, origin);
      if pc.variant == Pawn && (dest.y == 0 || dest.y == Size - 1) {
        MoveFigure(origin, dest, Some(Queen));
      } else if pc.variant == King && CastleSide(origin, dest) != 0 {
        var side := CastleSide(origin, dest);
        var moved := MoveRook(origin, side);
        if moved.Err? {
          return Err(moved.error);
        }
        assert Mover().defeated == RecordAll(tally, Capture(g, RookFrom(origin, side), RookTo(origin, side)));
      }
      ghost var last := Capture(field, origin, dest);
      MoveFigure(origin, dest, None);
      if pc.variant == King && CastleSide(origin, dest) != 0 {
        var side := CastleSide(origin, dest);
        RecordAllAppend(tally, Capture(g, RookFrom(origin, side), RookTo(origin, side)), last);
      }
      return Ok(());
    }

    /** The move branch of _mouse_down for the selected piece on `origin`
        and a click on `dest`: nothing changes unless Click says a move is
        made; then the grid and the tally of the player to move become the
        move's outcome and the session counts one more move. */
    method Play(origin: Pos, dest: Pos, fuel: nat) returns (r: Result<bool>)
      requires Valid() && InBounds(origin) && InBounds(dest)
      modifies this, gs, gs.white, gs.black
      ensures Valid()
      ensures var click := Click(old(field), old(gs.movesCount), origin, dest, fuel);
        && (click.Err? ==> r == Err(click.error))
        && (click == Ok(None) ==> r == Ok(false))
        && (click.Ok? && click.value.Some? ==> r == Ok(true))
      ensures var click := Click(old(field), old(gs.movesCount), origin, dest, fuel);
        var mover := if old(gs.movesCount) % 2 == 0 then gs.white else gs.black;
        var waiting := if old(gs.movesCount) % 2 == 0 then gs.black else gs.white;
        if click.Ok? && click.value.Some? then
          && field == click.value.value.grid
          && gs.movesCount == old(gs.movesCount) + 1
          && mover.defeated == RecordAll(old(mover.defeated), click.value.value.captured)
          && waiting.defeated == old(waiting.defeated)
        else
          && field == old(field)
          && gs.movesCount == old(gs.movesCount)
          && gs.white.defeated == old(gs.white.defeated)
          && gs.black.defeated == old(gs.black.defeated)
    {
      gs.NextPlayerColor();
      var mover := gs.NextPlayer().kind;
      if origin == dest || !IsFriend(field, origin, mover) {
        return Ok(false);
      }
      var markers := AllowedPositions(field, origin, fuel);
      if markers.Err? {
        return Err(markers.error);
      }
      if IsFriend(field, dest, mover) {
        var reselected := AllowedPositions(field, dest, fuel);
        if reselected.Err? {
          return Err(reselected.error);
        }
        return Ok(false);
      }
      if dest !in markers.value {
        return Ok(false);
      }
      ghost var g := field;
      var done := Execute(origin, dest);
      assert Click(g, gs.movesCount, origin, dest, fuel) == (if done.Ok? then Ok(Some(Perform(g, origin, dest).value)) else Err(done.error));
      if done.Err? {
        return Err(done.error);
      }
      gs.movesCount := gs.movesCount + 1;
      return Ok(true);
    }
  }

  lemma {:induction false} RecordAllAppend(tally: map<string, nat>, a: seq<string>, b: seq<string>)
    ensures RecordAll(RecordAll(tally, a), b) == RecordAll(tally, a + b)
    decreases |a|
  {
    if a != [] {
      RecordAllAppend(Record(tally, a[0]), a[1..], b);
      assert (a + b)[0] == a[0];
      assert (a + b)[1..] == a[1..] + b;
    } else {
      assert a + b == b;
    }
  }
}
