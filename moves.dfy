/** Raw move generation (figures.py calc_allowed_positions of every piece)
    and attack detection (_is_attacked).

    The King's moves evaluate castling, castling asks whether the rook's
    square is attacked, and attack detection generates the raw moves of every
    enemy piece, the enemy King's included. That recursion has no bound in the
    source (with both kings and a rook on each side unmoved and clear paths it
    does not end), so the functions here carry a `fuel` budget that castling
    spends on each attack query; a computation that runs out yields
    Err(OutOfFuel). */
module Moves {
  import opened Chess
  import opened Rays

  // ---------------------------------------------------------------------
  // Pawn (Pawn.calc_allowed_positions)

  function PawnOne(p: Pos, c: Color): Pos { Pos(p.x, p.y + Forward(c)) }
  function PawnTwo(p: Pos, c: Color): Pos { Pos(p.x, p.y + 2 * Forward(c)) }
  function PawnLeft(p: Pos, c: Color): Pos { Pos(p.x - 1, p.y + Forward(c)) }
  function PawnRight(p: Pos, c: Color): Pos { Pos(p.x + 1, p.y + Forward(c)) }

  /** The pawn's raw moves. The forward squares are not bounds-checked, so an
      off-board forward square is included whenever it is "not occupied". */
  function PawnMoves(g: Grid, p: Pos, c: Color): (r: set<Pos>)
    requires ValidGrid(g)
    ensures PawnOne(p, c) in r <==> !HasFigure(g, PawnOne(p, c))
    ensures PawnTwo(p, c) in r <==>
      !HasFigure(g, PawnOne(p, c)) && !HasFigure(g, PawnTwo(p, c)) && StartTag(p) == Some(Pawn)
    ensures PawnLeft(p, c) in r <==> HasFigure(g, PawnLeft(p, c))
    ensures PawnRight(p, c) in r <==> HasFigure(g, PawnRight(p, c))
    ensures forall t :: t in r ==>
      t == PawnOne(p, c) || t == PawnTwo(p, c) || t == PawnLeft(p, c) || t == PawnRight(p, c)
  {
    var one, two := PawnOne(p, c), PawnTwo(p, c);
    var left, right := PawnLeft(p, c), PawnRight(p, c);
    var onStartSquare := StartTag(p) == Some(Pawn);
    (if !HasFigure(g, one) then {one} else {})
    + (if !HasFigure(g, one) && !HasFigure(g, two) && onStartSquare then {two} else {})
    + (if HasFigure(g, left) then {left} else {})
    + (if HasFigure(g, right) then {right} else {})
  }

  /** A white pawn on the top rank reports the square above the board as a move. */
  lemma PawnForwardLeavesBoard(g: Grid, p: Pos)
    requires ValidGrid(g) && InBounds(p) && p.y == 0
    ensures Pos(p.x, -1) in PawnMoves(g, p, White) && !InBounds(Pos(p.x, -1))
  {
    assert PawnOne(p, White) == Pos(p.x, -1);
  }

  // ---------------------------------------------------------------------
  // Raw moves of the pieces without castling

  /** calc_allowed_positions of every piece but the King: the pawn rule, or the
      ray walk over the piece's direction table and max step. */
  function BasicMoves(g: Grid, q: Pos): (r: set<Pos>)
    requires ValidGrid(g) && HasFigure(g, q) && At(g, q).variant != King
  {
    var pc := At(g, q);
    if pc.variant == Pawn then PawnMoves(g, q, pc.player)
    else RayWalk(g, q, Directions(pc.variant, pc.player), MaxStep(pc.variant))
  }

  /** A square one king step away from q. */
  predicate Adjacent(q: Pos, t: Pos)
  {
    t != q && -1 <= t.x - q.x <= 1 && -1 <= t.y - q.y <= 1
  }

  lemma {:induction false} OneStepIsAdjacent(g: Grid, q: Pos, t: Pos)
    requires ValidGrid(g)
    requires t in RayWalk(g, q, KingDirs, 1)
    ensures Adjacent(q, t)
  {
    RayWalkMembership(g, q, KingDirs, 1, t);
    var i :| 0 <= i < |KingDirs| && t in Ray(g, q, KingDirs[i], 1);
    assert Unit(Directions(King, White)[i]);
    RayMembership(g, q, KingDirs[i], 1, t);
  }

  /** What one enemy piece contributes to the squares a King may not enter
      (the occupied_by_other scan): an enemy pawn only its two on-board
      forward diagonals, an enemy king only its one-step squares, every other
      piece its full raw move set. */
  function ThreatOf(g: Grid, q: Pos): (r: set<Pos>)
    requires ValidGrid(g) && HasFigure(g, q)
  {
    var pc := At(g, q);
    if pc.variant == Pawn then
      var idx := Forward(pc.player);
      var a, b := Pos(q.x + 1, q.y + idx), Pos(q.x - 1, q.y + idx);
      (if InBounds(a) then {a} else {}) + (if InBounds(b) then {b} else {})
    else if pc.variant == King then RayWalk(g, q, KingDirs, 1)
    else BasicMoves(g, q)
  }

  /** The three threat rules, stated square by square. */
  lemma ThreatOfShape(g: Grid, q: Pos, t: Pos)
    requires ValidGrid(g) && HasFigure(g, q)
    ensures At(g, q).variant == Pawn ==> (t in ThreatOf(g, q) <==>
      InBounds(t) && t.y == q.y + Forward(At(g, q).player) && (t.x == q.x + 1 || t.x == q.x - 1))
    ensures At(g, q).variant == King && t in ThreatOf(g, q) ==> InBounds(t) && Adjacent(q, t)
    ensures At(g, q).variant !in {Pawn, King} ==> ThreatOf(g, q) == BasicMoves(g, q)
  {
    if At(g, q).variant == King && t in ThreatOf(g, q) {
      OneStepIsAdjacent(g, q, t);
    }
  }

  /** The threat set: acc, plus what the scan from (i, j) on in board order adds. */
  function ThreatsFrom(g: Grid, c: Color, i: int, j: int, acc: set<Pos>): set<Pos>
    requires ValidGrid(g) && 0 <= i <= Size && 0 <= j <= Size
    decreases Size - i, Size - j
  {
    if i == Size then acc
    else if j == Size then ThreatsFrom(g, c, i + 1, 0, acc)
    else ThreatsFrom(g, c, i, j + 1, acc + if IsEnemy(g, Pos(i, j), c) then ThreatOf(g, Pos(i, j)) else {})
  }

  /** occupied_by_other for a King of colour c. */
  function Threats(g: Grid, c: Color): set<Pos>
    requires ValidGrid(g)
  {
    ThreatsFrom(g, c, 0, 0, {})
  }

  lemma {:induction false} ThreatsFromMembership(g: Grid, c: Color, i: int, j: int, acc: set<Pos>, t: Pos)
    requires ValidGrid(g) && 0 <= i <= Size && 0 <= j <= Size
    ensures t in ThreatsFrom(g, c, i, j, acc) <==>
      t in acc || exists q :: !Scanned(q, i, j) && IsEnemy(g, q, c) && t in ThreatOf(g, q)
    decreases Size - i, Size - j
  {
    if i == Size {
    } else if j == Size {
      ThreatsFromMembership(g, c, i + 1, 0, acc, t);
      if exists q :: !Scanned(q, i, j) && IsEnemy(g, q, c) && t in ThreatOf(g, q) {
        var q :| !Scanned(q, i, j) && IsEnemy(g, q, c) && t in ThreatOf(g, q);
        assert !Scanned(q, i + 1, 0);
      }
    } else {
      var p := Pos(i, j);
      var acc' := acc + if IsEnemy(g, p, c) then ThreatOf(g, p) else {};
      ThreatsFromMembership(g, c, i, j + 1, acc', t);
      if t in acc' && t !in acc {
        assert IsEnemy(g, p, c) && t in ThreatOf(g, p) && !Scanned(p, i, j);
      }
      if exists q :: !Scanned(q, i, j) && IsEnemy(g, q, c) && t in ThreatOf(g, q) {
        var q :| !Scanned(q, i, j) && IsEnemy(g, q, c) && t in ThreatOf(g, q);
        if q != p {
          assert !Scanned(q, i, j + 1);
        }
      }
    }
  }

  /** A square is in the threat set iff some enemy piece threatens it. */
  lemma ThreatsMembership(g: Grid, c: Color, t: Pos)
    requires ValidGrid(g)
    ensures t in Threats(g, c) <==> exists q :: IsEnemy(g, q, c) && t in ThreatOf(g, q)
  {
    ThreatsFromMembership(g, c, 0, 0, {}, t);
  }

  // ---------------------------------------------------------------------
  // Castling (check_roque)

  /** The square s files away from k on k's rank. */
  function FileOffset(k: Pos, s: int): Pos
  {
    Pos(k.x + s, k.y)
  }

  /** Some square at file offset lo .. hi - 1 from k, on k's rank, holds a piece. */
  predicate Blocked(g: Grid, k: Pos, lo: int, hi: int)
    requires ValidGrid(g)
  {
    exists s :: lo <= s < hi && HasFigure(g, FileOffset(k, s))
  }

  /** Everything check_roque demands before it asks about attacks: an unmoved
      Rook (of either colour) at file offset rookOff, no piece at offsets
      lo .. hi - 1, and an on-board destination at offset bias. */
  predicate CastleReady(g: Grid, k: Pos, rookOff: int, lo: int, hi: int, bias: int)
    requires ValidGrid(g)
  {
    var rook := Pos(k.x + rookOff, k.y);
    && HasFigure(g, rook) && At(g, rook).variant == Rook && At(g, rook).moves == 0
    && !Blocked(g, k, lo, hi)
    && InBounds(Pos(k.x + bias, k.y))
  }

  /** The left side: rook four files away, squares -3 .. -1 empty, two-file hop left. */
  predicate LeftReady(g: Grid, k: Pos)
    requires ValidGrid(g)
  {
    CastleReady(g, k, -4, -3, 0, -2)
  }

  /** The right side: rook three files away, squares +1 .. +2 empty, two-file hop right. */
  predicate RightReady(g: Grid, k: Pos)
    requires ValidGrid(g)
  {
    CastleReady(g, k, 3, 1, 3, 2)
  }

  /** check_roque for one side: the hop, if the side is ready and its rook's
      square is not attacked (attack detection spends one unit of fuel). */
  function Roque(g: Grid, k: Pos, rookOff: int, lo: int, hi: int, bias: int, fuel: nat): (r: Result<set<Pos>>)
    requires ValidGrid(g) && HasFigure(g, k)
    ensures r.Ok? ==> r.value <= {Pos(k.x + bias, k.y)}
    ensures r.Ok? && r.value != {} ==>
      (CastleReady(g, k, rookOff, lo, hi, bias) && fuel > 0
       && IsAttackedFrom(g, Pos(k.x + rookOff, k.y), fuel - 1, 0, 0) == Ok(false))
    ensures (CastleReady(g, k, rookOff, lo, hi, bias) && fuel > 0
       && IsAttackedFrom(g, Pos(k.x + rookOff, k.y), fuel - 1, 0, 0) == Ok(false)) ==>
      r == Ok({Pos(k.x + bias, k.y)})
    ensures !CastleReady(g, k, rookOff, lo, hi, bias) ==> r == Ok({})
    ensures r.Err? ==> r.error == OutOfFuel
    decreases fuel, 0
  {
    var rook := Pos(k.x + rookOff, k.y);
    if !(HasFigure(g, rook) && At(g, rook).variant == Rook && At(g, rook).moves == 0) then Ok({})
    else
      var newPos := Pos(k.x + bias, k.y);
      if Blocked(g, k, lo, hi) || !InBounds(newPos) then Ok({})
      else if fuel == 0 then Err(OutOfFuel)
      else
        var attacked :- IsAttackedFrom(g, rook, fuel - 1, 0, 0);
        if attacked then Ok({}) else Ok({newPos})
  }

  /** Both sides of castling, left first. */
  function Castling(g: Grid, k: Pos, fuel: nat): (r: Result<set<Pos>>)
    requires ValidGrid(g) && HasFigure(g, k)
    ensures r.Err? ==> r.error == OutOfFuel
    decreases fuel, 1
  {
    var left :- Roque(g, k, -4, -3, 0, -2, fuel);
    var right :- Roque(g, k, 3, 1, 3, 2, fuel);
    Ok(left + right)
  }

  // ---------------------------------------------------------------------
  // King (King.calc_allowed_positions) and attack detection (_is_attacked)

  /** The King's raw moves: its one-step squares, plus the castling hops when
      it has never moved, minus every square an enemy piece threatens. */
  function KingMoves(g: Grid, k: Pos, fuel: nat): (r: Result<set<Pos>>)
    requires ValidGrid(g) && HasFigure(g, k)
    ensures r.Ok? ==> forall t :: t in r.value ==> t !in Threats(g, At(g, k).player)
    ensures r.Ok? ==> RayWalk(g, k, KingDirs, 1) - Threats(g, At(g, k).player) <= r.value
    ensures At(g, k).moves != 0 ==> r == Ok(RayWalk(g, k, KingDirs, 1) - Threats(g, At(g, k).player))
    ensures r.Err? ==> r.error == OutOfFuel
    decreases fuel, 2
  {
    var king := At(g, k);
    var positions := RayWalk(g, k, KingDirs, 1);
    var occupiedByOther := Threats(g, king.player);
    if king.moves != 0 then Ok(positions - occupiedByOther)
    else
      var castles :- Castling(g, k, fuel);
      Ok((positions + castles) - occupiedByOther)
  }

  /** calc_allowed_positions of any piece. */
  function RawMoves(g: Grid, q: Pos, fuel: nat): (r: Result<set<Pos>>)
    requires ValidGrid(g) && HasFigure(g, q)
    ensures At(g, q).variant != King ==> r == Ok(BasicMoves(g, q))
    ensures r.Err? ==> r.error == OutOfFuel
    decreases fuel, 3
  {
    if At(g, q).variant == King then KingMoves(g, q, fuel) else Ok(BasicMoves(g, q))
  }

  /** _is_attacked, scanned from (i, j) on: the first enemy of the piece at t
      (in board order) whose raw moves contain t answers true. */
  function IsAttackedFrom(g: Grid, t: Pos, fuel: nat, i: int, j: int): (r: Result<bool>)
    requires ValidGrid(g) && HasFigure(g, t) && 0 <= i <= Size && 0 <= j <= Size
    ensures r.Err? ==> r.error == OutOfFuel
    decreases fuel, 4, Size - i, Size - j
  {
    if i == Size then Ok(false)
    else if j == Size then IsAttackedFrom(g, t, fuel, i + 1, 0)
    else if IsEnemy(g, Pos(i, j), At(g, t).player) then
      var moves :- RawMoves(g, Pos(i, j), fuel);
      if t in moves then Ok(true) else IsAttackedFrom(g, t, fuel, i, j + 1)
    else IsAttackedFrom(g, t, fuel, i, j + 1)
  }

  /** _is_attacked(figure) for the piece at t. */
  function IsAttacked(g: Grid, t: Pos, fuel: nat): (r: Result<bool>)
    requires ValidGrid(g) && HasFigure(g, t)
    ensures r.Err? ==> r.error == OutOfFuel
  {
    IsAttackedFrom(g, t, fuel, 0, 0)
  }

  lemma {:induction false} IsAttackedFromMeaning(g: Grid, t: Pos, fuel: nat, i: int, j: int)
    requires ValidGrid(g) && HasFigure(g, t) && 0 <= i <= Size && 0 <= j <= Size
    ensures var r := IsAttackedFrom(g, t, fuel, i, j); var c := At(g, t).player;
      && (r == Ok(true) ==> exists q :: (!Scanned(q, i, j) && IsEnemy(g, q, c)
            && RawMoves(g, q, fuel).Ok? && t in RawMoves(g, q, fuel).value))
      && (r == Ok(false) ==> forall q :: !Scanned(q, i, j) && IsEnemy(g, q, c) ==>
            RawMoves(g, q, fuel).Ok? && t !in RawMoves(g, q, fuel).value)
      && (r.Err? ==> exists q :: !Scanned(q, i, j) && IsEnemy(g, q, c) && RawMoves(g, q, fuel).Err?)
    decreases Size - i, Size - j
  {
    var c := At(g, t).player;
    if i == Size {
    } else if j == Size {
      IsAttackedFromMeaning(g, t, fuel, i + 1, 0);
      forall q | !Scanned(q, i, j) && IsEnemy(g, q, c) ensures !Scanned(q, i + 1, 0) { }
    } else {
      var p := Pos(i, j);
      assert !Scanned(p, i, j);
      IsAttackedFromMeaning(g, t, fuel, i, j + 1);
      forall q | !Scanned(q, i, j + 1) ensures !Scanned(q, i, j) { }
      forall q | !Scanned(q, i, j) && q != p ensures !Scanned(q, i, j + 1) { }
    }
  }

  /** is_checked / _is_attacked: true only if an enemy piece's raw moves reach
      t; false only if every enemy piece's raw moves were computed and none
      reaches t; an error only if some enemy piece's raw moves failed. */
  lemma IsAttackedMeaning(g: Grid, t: Pos, fuel: nat)
    requires ValidGrid(g) && HasFigure(g, t)
    ensures var r := IsAttacked(g, t, fuel); var c := At(g, t).player;
      && (r == Ok(true) ==> exists q :: (IsEnemy(g, q, c)
            && RawMoves(g, q, fuel).Ok? && t in RawMoves(g, q, fuel).value))
      && (r == Ok(false) ==> forall q :: IsEnemy(g, q, c) ==>
            RawMoves(g, q, fuel).Ok? && t !in RawMoves(g, q, fuel).value)
      && (r.Err? ==> exists q :: IsEnemy(g, q, c) && RawMoves(g, q, fuel).Err?)
  {
    IsAttackedFromMeaning(g, t, fuel, 0, 0);
  }

  /** A King never steps onto a square that an enemy piece threatens. */
  lemma KingAvoidsThreats(g: Grid, k: Pos, fuel: nat, t: Pos, q: Pos)
    requires ValidGrid(g) && HasFigure(g, k)
    requires KingMoves(g, k, fuel).Ok? && t in KingMoves(g, k, fuel).value
    requires IsEnemy(g, q, At(g, k).player)
    ensures t !in ThreatOf(g, q)
  {
    ThreatsMembership(g, At(g, k).player, t);
  }

  /** The castling hop to the right is a King move only if the King never
      moved, the right side is ready, its rook's square is not attacked, and
      no enemy piece threatens the destination; and then it is one. */
  lemma CastleRight(g: Grid, k: Pos, fuel: nat)
    requires ValidGrid(g) && HasFigure(g, k) && KingMoves(g, k, fuel).Ok?
    ensures var dest := Pos(k.x + 2, k.y);
      dest in KingMoves(g, k, fuel).value <==>
        && At(g, k).moves == 0 && RightReady(g, k) && fuel > 0
        && IsAttackedFrom(g, Pos(k.x + 3, k.y), fuel - 1, 0, 0) == Ok(false)
        && dest !in Threats(g, At(g, k).player)
  {
    var dest := Pos(k.x + 2, k.y);
    if dest in RayWalk(g, k, KingDirs, 1) {
      OneStepIsAdjacent(g, k, dest);
    }
    if At(g, k).moves == 0 {
      assert Castling(g, k, fuel).Ok?;
      var left := Roque(g, k, -4, -3, 0, -2, fuel);
      assert dest !in left.value;
    }
  }

  /** The same for the hop to the left, with the rook four files away. */
  lemma CastleLeft(g: Grid, k: Pos, fuel: nat)
    requires ValidGrid(g) && HasFigure(g, k) && KingMoves(g, k, fuel).Ok?
    ensures var dest := Pos(k.x - 2, k.y);
      dest in KingMoves(g, k, fuel).value <==>
        && At(g, k).moves == 0 && LeftReady(g, k) && fuel > 0
        && IsAttackedFrom(g, Pos(k.x - 4, k.y), fuel - 1, 0, 0) == Ok(false)
        && dest !in Threats(g, At(g, k).player)
  {
    var dest := Pos(k.x - 2, k.y);
    if dest in RayWalk(g, k, KingDirs, 1) {
      OneStepIsAdjacent(g, k, dest);
    }
    if At(g, k).moves == 0 {
      assert Castling(g, k, fuel).Ok?;
      var right := Roque(g, k, 3, 1, 3, 2, fuel);
      assert dest !in right.value;
    }
  }

  /** A King move that is not a one-step move is a castling hop, and the side
      it hops to is ready (so that side's rook stands on the board). */
  lemma KingJump(g: Grid, k: Pos, fuel: nat, t: Pos)
    requires ValidGrid(g) && HasFigure(g, k) && KingMoves(g, k, fuel).Ok?
    requires t in KingMoves(g, k, fuel).value && !Adjacent(k, t)
    ensures (t == Pos(k.x + 2, k.y) && RightReady(g, k)) || (t == Pos(k.x - 2, k.y) && LeftReady(g, k))
  {
    if t in RayWalk(g, k, KingDirs, 1) {
      OneStepIsAdjacent(g, k, t);
    }
    assert At(g, k).moves == 0;
    var left := Roque(g, k, -4, -3, 0, -2, fuel);
    var right := Roque(g, k, 3, 1, 3, 2, fuel);
    assert t in left.value || t in right.value;
  }

  // ---------------------------------------------------------------------
  // The loops of the source, proved equal to the functions above.

  /** The `is_fig` loop of check_roque. */
  method PathBlocked(g: Grid, k: Pos, lo: int, hi: int) returns (isFig: bool)
    requires ValidGrid(g)
    ensures isFig == Blocked(g, k, lo, hi)
  {
    isFig := false;
    var step := lo;
    while step < hi
      invariant if lo <= hi then lo <= step <= hi else step == lo
      invariant isFig == Blocked(g, k, lo, step)
      decreases hi - step
    {
      var cell := Get(g, FileOffset(k, step));
      if cell.Some? && cell.value.Occupied? {
        isFig := true;
        assert HasFigure(g, FileOffset(k, step));
      } else {
        assert !HasFigure(g, FileOffset(k, step));
      }
      step := step + 1;
    }
    if lo > hi {
      assert !Blocked(g, k, lo, hi);
    }
  }

  /** The i/j board scan of _is_attacked, returning at the first attacker. */
  method IsAttackedScan(g: Grid, t: Pos, fuel: nat) returns (r: Result<bool>)
    requires ValidGrid(g) && HasFigure(g, t)
    ensures r == IsAttacked(g, t, fuel)
  {
    var c := At(g, t).player;
    for i := 0 to Size
      invariant IsAttackedFrom(g, t, fuel, i, 0) == IsAttacked(g, t, fuel)
    {
      for j := 0 to Size
        invariant IsAttackedFrom(g, t, fuel, i, j) == IsAttacked(g, t, fuel)
      {
        var cell := Get(g, Pos(i, j));
        if cell.value.Occupied? && cell.value.piece.player != c {
          var moves := RawMoves(g, Pos(i, j), fuel);
          if moves.Err? {
            return Err(moves.error);
          }
          if t in moves.value {
            return Ok(true);
          }
        }
      }
    }
    return Ok(false);
  }

  /** What the occupied_by_other scan adds for the enemy piece at q. */
  method PieceThreat(g: Grid, q: Pos) returns (s: set<Pos>)
    requires ValidGrid(g) && HasFigure(g, q)
    ensures s == ThreatOf(g, q)
  {
    var pc := At(g, q);
    if pc.variant == Pawn {
      var idx := Forward(pc.player);
      s := {};
      var a := Pos(q.x + 1, q.y + idx);
      if Get(g, a).Some? {
        s := s + {a};
      }
      var b := Pos(q.x - 1, q.y + idx);
      if Get(g, b).Some? {
        s := s + {b};
      }
    } else if pc.variant == King {
      s := PrecalculateAllowedPos(g, q, KingDirs, 1);
    } else {
      s := PrecalculateAllowedPos(g, q, Directions(pc.variant, pc.player), MaxStep(pc.variant));
    }
  }

  /** One file (the j loop) of the occupied_by_other scan: the threats it
      adds to acc are exactly what the scan of that file contributes. */
  method ThreatScanFile(g: Grid, c: Color, i: int, acc: set<Pos>) returns (acc': set<Pos>)
    requires ValidGrid(g) && 0 <= i < Size
    ensures ThreatsFrom(g, c, i + 1, 0, acc') == ThreatsFrom(g, c, i, 0, acc)
  {
    acc' := acc;
    for j := 0 to Size
      invariant ThreatsFrom(g, c, i, j, acc') == ThreatsFrom(g, c, i, 0, acc)
    {
      var cell := Get(g, Pos(i, j));
      if cell.value.Occupied? && cell.value.piece.player != c {
        var s := PieceThreat(g, Pos(i, j));
        acc' := acc' + s;
      } else {
        assert acc' + {} == acc';
      }
    }
  }

  /** The occupied_by_other scan of King.calc_allowed_positions. */
  method ThreatScan(g: Grid, c: Color) returns (occupiedByOther: set<Pos>)
    requires ValidGrid(g)
    ensures occupiedByOther == Threats(g, c)
  {
    occupiedByOther := {};
    for i := 0 to Size
      invariant ThreatsFrom(g, c, i, 0, occupiedByOther) == Threats(g, c)
    {
      occupiedByOther := ThreatScanFile(g, c, i, occupiedByOther);
    }
  }

  /** check_roque for one side, with the is_fig loop and the attack scan. */
  method CheckRoque(g: Grid, k: Pos, rookOff: int, lo: int, hi: int, bias: int, fuel: nat)
    returns (r: Result<set<Pos>>)
    requires ValidGrid(g) && HasFigure(g, k)
    ensures r == Roque(g, k, rookOff, lo, hi, bias, fuel)
  {
    var rook := Pos(k.x + rookOff, k.y);
    var rCell := Get(g, rook);
    if rCell.Some? && rCell.value.Occupied? && rCell.value.piece.variant == Rook && rCell.value.piece.moves == 0 {
      var isFig := PathBlocked(g, k, lo, hi);
      var newPos := Pos(k.x + bias, k.y);
      if !isFig && Get(g, newPos).Some? {
        if fuel == 0 {
          return Err(OutOfFuel);
        }
        var attacked := IsAttackedScan(g, rook, fuel - 1);
        if attacked.Err? {
          return Err(attacked.error);
        }
        return if attacked.value then Ok({}) else Ok({newPos});
      }
    }
    return Ok({});
  }

  /** King.calc_allowed_positions, step by step. */
  method KingAllowedPositions(g: Grid, k: Pos, fuel: nat) returns (r: Result<set<Pos>>)
    requires ValidGrid(g) && HasFigure(g, k)
    ensures r == KingMoves(g, k, fuel)
  {
    var king := At(g, k);
    var positions := PrecalculateAllowedPos(g, k, KingDirs, 1);
    var occupiedByOther := ThreatScan(g, king.player);
    if king.moves != 0 {
      return Ok(positions - occupiedByOther);
    }
    var left := CheckRoque(g, k, -4, -3, 0, -2, fuel);
    if left.Err? {
      return Err(left.error);
    }
    var right := CheckRoque(g, k, 3, 1, 3, 2, fuel);
    if right.Err? {
      return Err(right.error);
    }
    assert Castling(g, k, fuel) == Ok(left.value + right.value);
    return Ok((positions + (left.value + right.value)) - occupiedByOther);
  }

  /** calc_allowed_positions of a piece other than a King. */
  method BasicAllowedPositions(g: Grid, q: Pos) returns (s: set<Pos>)
    requires ValidGrid(g) && HasFigure(g, q) && At(g, q).variant != King
    ensures s == BasicMoves(g, q)
  {
    var pc := At(g, q);
    if pc.variant == Pawn {
      s := PawnMoves(g, q, pc.player);
    } else {
      s := PrecalculateAllowedPos(g, q, Directions(pc.variant, pc.player), MaxStep(pc.variant));
    }
  }

  /** calc_allowed_positions of any piece. */
  method CalcAllowedPositions(g: Grid, q: Pos, fuel: nat) returns (r: Result<set<Pos>>)
    requires ValidGrid(g) && HasFigure(g, q)
    ensures r == RawMoves(g, q, fuel)
  {
    if At(g, q).variant == King {
      r := KingAllowedPositions(g, q, fuel);
    } else {
      var s := BasicAllowedPositions(g, q);
      r := Ok(s);
    }
  }
}
