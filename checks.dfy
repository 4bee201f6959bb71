/** Check analysis on top of the raw moves (figures.py): the king's
    checking-line scan (get_checked_positions), the legal-move filter
    (allowed_positions), the king lookup (get_king) and the mate oracle
    (is_mated). */
module Checks {
  import opened Chess
  import opened Rays
  import opened Moves

  // ---------------------------------------------------------------------
  // The sign walk of get_checked_positions

  /** How many steps along d are left before p leaves the board, summed
      over the components d moves in. */
  function Room(p: Pos, d: Pos): nat
    requires InBounds(p)
  {
    (if d.x > 0 then Size - p.x else if d.x < 0 then p.x + 1 else 0)
    + (if d.y > 0 then Size - p.y else if d.y < 0 then p.y + 1 else 0)
  }

  /** How far p lies along d: the coordinates d moves in, signed by d. */
  function Along(p: Pos, d: Pos): int
  {
    (if d.x > 0 then p.x else if d.x < 0 then -p.x else 0)
    + (if d.y > 0 then p.y else if d.y < 0 then -p.y else 0)
  }

  /** The inner while loop of get_checked_positions for an attacker of colour
      `own` at `from`: step along d, adding every square reached, until a
      square off the board (which is still added) or a piece of colour `own`
      (also added). Pieces of the other colour, the king among them, do not
      stop it. */
  function SliderWalk(g: Grid, from: Pos, d: Pos, own: Color): set<Pos>
    requires ValidGrid(g) && InBounds(from) && Unit(d)
    decreases Room(from, d)
  {
    var next := Pos(from.x + d.x, from.y + d.y);
    if !InBounds(next) || IsFriend(g, next, own) then {next}
    else {next} + SliderWalk(g, next, d, own)
  }

  /** The walk only moves forward along d, so it never comes back to its start. */
  lemma {:induction false} WalkAhead(g: Grid, from: Pos, d: Pos, own: Color)
    requires ValidGrid(g) && InBounds(from) && Unit(d)
    ensures forall t :: t in SliderWalk(g, from, d, own) ==> Along(t, d) > Along(from, d)
    ensures from !in SliderWalk(g, from, d, own)
    decreases Room(from, d)
  {
    var next := Pos(from.x + d.x, from.y + d.y);
    if InBounds(next) && !IsFriend(g, next, own) {
      WalkAhead(g, next, d, own);
    }
  }

  /** Every square strictly between `from` and m steps along d is on the
      board and holds no piece of colour `own`. */
  predicate WalkOpen(g: Grid, from: Pos, d: Pos, own: Color, m: int)
    requires ValidGrid(g)
  {
    forall j :: 1 <= j < m ==> InBounds(Shift(from, d, j)) && !IsFriend(g, Shift(from, d, j), own)
  }

  /** The squares before m + 1 steps from `from` are the first step and the
      squares before m steps from it. */
  lemma WalkOpenNext(g: Grid, from: Pos, d: Pos, own: Color, m: int)
    requires ValidGrid(g) && 1 <= m
    ensures var next := Pos(from.x + d.x, from.y + d.y);
      WalkOpen(g, from, d, own, m + 1) <==>
        InBounds(next) && !IsFriend(g, next, own) && WalkOpen(g, next, d, own, m)
  {
    var next := Pos(from.x + d.x, from.y + d.y);
    assert Shift(from, d, 1) == next;
    if WalkOpen(g, from, d, own, m + 1) {
      forall j | 1 <= j < m
        ensures InBounds(Shift(next, d, j)) && !IsFriend(g, Shift(next, d, j), own)
      {
        ShiftNext(from, d, j);
      }
    }
    if InBounds(next) && !IsFriend(g, next, own) && WalkOpen(g, next, d, own, m) {
      forall j | 1 <= j < m + 1
        ensures InBounds(Shift(from, d, j)) && !IsFriend(g, Shift(from, d, j), own)
      {
        if j > 1 {
          ShiftNext(from, d, j - 1);
        }
      }
    }
  }

  /** Every square of the walk is m >= 1 steps along d with the squares
      before it on the board and free of the walker's own pieces. */
  lemma {:induction false} WalkSound(g: Grid, from: Pos, d: Pos, own: Color, t: Pos)
    requires ValidGrid(g) && InBounds(from) && Unit(d)
    requires t in SliderWalk(g, from, d, own)
    ensures exists m :: 1 <= m && t == Shift(from, d, m) && WalkOpen(g, from, d, own, m)
    decreases Room(from, d)
  {
    var next := Pos(from.x + d.x, from.y + d.y);
    assert Shift(from, d, 1) == next;
    if t == next {
      assert WalkOpen(g, from, d, own, 1);
    } else {
      assert InBounds(next) && !IsFriend(g, next, own) && t in SliderWalk(g, next, d, own);
      WalkSound(g, next, d, own, t);
      var m :| 1 <= m && t == Shift(next, d, m) && WalkOpen(g, next, d, own, m);
      ShiftNext(from, d, m);
      WalkOpenNext(g, from, d, own, m);
      assert t == Shift(from, d, m + 1) && WalkOpen(g, from, d, own, m + 1);
    }
  }

  /** Conversely, every such square is reached by the walk. */
  lemma {:induction false} WalkComplete(g: Grid, from: Pos, d: Pos, own: Color, m: int)
    requires ValidGrid(g) && InBounds(from) && Unit(d)
    requires 1 <= m && WalkOpen(g, from, d, own, m)
    ensures Shift(from, d, m) in SliderWalk(g, from, d, own)
    decreases m
  {
    var next := Pos(from.x + d.x, from.y + d.y);
    assert Shift(from, d, 1) == next;
    if m > 1 {
      WalkOpenNext(g, from, d, own, m - 1);
      WalkComplete(g, next, d, own, m - 1);
      ShiftNext(from, d, m - 1);
    }
  }

  /** The walk, described without recursion: t is reached iff it is m >= 1
      steps along d and every square before it is on the board and free of
      the walker's own pieces. */
  lemma WalkMembership(g: Grid, from: Pos, d: Pos, own: Color, t: Pos)
    requires ValidGrid(g) && InBounds(from) && Unit(d)
    ensures t in SliderWalk(g, from, d, own) <==>
      exists m :: 1 <= m && t == Shift(from, d, m) && WalkOpen(g, from, d, own, m)
  {
    if t in SliderWalk(g, from, d, own) {
      WalkSound(g, from, d, own, t);
    }
    if exists m :: 1 <= m && t == Shift(from, d, m) && WalkOpen(g, from, d, own, m) {
      var m :| 1 <= m && t == Shift(from, d, m) && WalkOpen(g, from, d, own, m);
      WalkComplete(g, from, d, own, m);
    }
  }

  /** m steps along a unit direction d point from the start in direction d. */
  lemma {:induction false} DirectionOfShift(q: Pos, d: Pos, m: int)
    requires Unit(d) && m >= 1
    ensures Direction(Shift(q, d, m), q) == d
    decreases m
  {
    var next := Pos(q.x + d.x, q.y + d.y);
    ShiftNext(q, d, m - 1);
    if m > 1 {
      DirectionOfShift(next, d, m - 1);
    }
  }

  /** A square that a ray reaches is reached by the sign walk from the same
      start toward it: the ray stops at the first piece, the walk only at the
      walker's own pieces, and the sign of the offset is the ray's direction. */
  lemma RayInWalk(g: Grid, q: Pos, d: Pos, steps: nat, own: Color, t: Pos)
    requires ValidGrid(g) && InBounds(q) && Unit(d) && t in Ray(g, q, d, steps)
    ensures Direction(t, q) == d
    ensures t in SliderWalk(g, q, d, own)
  {
    RayMembership(g, q, d, steps, t);
    var m :| 1 <= m <= steps && t == Shift(q, d, m) && InBounds(t) && ClearBefore(g, q, d, m);
    DirectionOfShift(q, d, m);
    assert WalkOpen(g, q, d, own, m);
    WalkMembership(g, q, d, own, t);
  }

  // ---------------------------------------------------------------------
  // get_checked_positions

  /** The pair get_checked_positions returns: the line set and the position
      of the last checking piece found, if any. */
  datatype CheckInfo = CheckInfo(line: set<Pos>, attacker: Option<Pos>)

  /** A pawn or a knight: a piece whose check cannot be blocked. */
  predicate Leaper(g: Grid, q: Pos)
    requires ValidGrid(g)
  {
    HasFigure(g, q) && (At(g, q).variant == Pawn || At(g, q).variant == Knight)
  }

  /** A rook, bishop or queen: a piece get_checked_positions walks a line for. */
  predicate Slider(g: Grid, q: Pos)
    requires ValidGrid(g)
  {
    HasFigure(g, q) && (At(g, q).variant == Rook || At(g, q).variant == Bishop || At(g, q).variant == Queen)
  }

  /** The line walked from the piece at q toward the king at k (empty when
      there is no piece at q or it stands on k). */
  function Line(g: Grid, k: Pos, q: Pos): set<Pos>
    requires ValidGrid(g)
  {
    if HasFigure(g, q) && q != k then SliderWalk(g, q, Direction(k, q), At(g, q).player) else {}
  }

  /** The piece at q is an enemy of the king at k that the scan records: a
      pawn or knight whose raw moves reach k, or a slider whose walk toward
      k passes k. */
  predicate GivesCheck(g: Grid, k: Pos, q: Pos)
    requires ValidGrid(g) && HasFigure(g, k)
  {
    && IsEnemy(g, q, At(g, k).player)
    && ((Leaper(g, q) && k in BasicMoves(g, q)) || (Slider(g, q) && k in Line(g, k, q)))
  }

  /** One cell of the scan. A pawn or knight check replaces the line by the
      intersection of the pawn's or knight's move set with the king's two
      integer coordinates, which holds no square: the empty set. */
  function CheckStep(g: Grid, k: Pos, q: Pos, info: CheckInfo): CheckInfo
    requires ValidGrid(g) && HasFigure(g, k)
  {
    if !IsEnemy(g, q, At(g, k).player) then info
    else if At(g, q).variant == Pawn || At(g, q).variant == Knight then
      if k in BasicMoves(g, q) then CheckInfo({}, Some(q)) else info
    else if At(g, q).variant != King then
      var pos := SliderWalk(g, q, Direction(k, q), At(g, q).player);
      if k in pos then CheckInfo(info.line + pos, Some(q)) else info
    else info
  }

  /** The i/j scan of get_checked_positions from (i, j) on, starting from info. */
  function CheckedFrom(g: Grid, k: Pos, i: int, j: int, info: CheckInfo): CheckInfo
    requires ValidGrid(g) && HasFigure(g, k) && 0 <= i <= Size && 0 <= j <= Size
    decreases Size - i, Size - j
  {
    if i == Size then info
    else if j == Size then CheckedFrom(g, k, i + 1, 0, info)
    else CheckedFrom(g, k, i, j + 1, CheckStep(g, k, Pos(i, j), info))
  }

  /** get_checked_positions of the king at k. */
  function CheckedPositions(g: Grid, k: Pos): CheckInfo
    requires ValidGrid(g) && HasFigure(g, k)
  {
    CheckedFrom(g, k, 0, 0, CheckInfo({}, None))
  }

  /** A check step in terms of GivesCheck: a pawn or knight check resets the
      line, a slider check adds its walk, and in both cases the checker
      becomes the recorded attacker; any other cell changes nothing. */
  lemma CheckStepMeaning(g: Grid, k: Pos, q: Pos, info: CheckInfo)
    requires ValidGrid(g) && HasFigure(g, k)
    ensures CheckStep(g, k, q, info) ==
      if !GivesCheck(g, k, q) then info
      else if Leaper(g, q) then CheckInfo({}, Some(q))
      else CheckInfo(info.line + Line(g, k, q), Some(q))
  {
  }

  /** What the scan has established once it has looked at every cell before
      (i, j): the recorded attacker is the last checker seen, and none was
      seen if none is recorded; a pawn or knight attacker leaves the line
      empty, and a slider attacker's own walk is part of it. */
  ghost predicate AttackerInv(g: Grid, k: Pos, i: int, j: int, info: CheckInfo)
    requires ValidGrid(g) && HasFigure(g, k)
  {
    match info.attacker
    case None => forall q :: Scanned(q, i, j) ==> !GivesCheck(g, k, q)
    case Some(a) =>
      && Scanned(a, i, j) && GivesCheck(g, k, a)
      && (forall q :: Scanned(q, i, j) && GivesCheck(g, k, q) ==> q == a || Before(q, a))
      && (Leaper(g, a) ==> info.line == {})
      && (!Leaper(g, a) ==> Line(g, k, a) <= info.line)
  }

  /** Every square of the line lies on the walk of a slider seen to check. */
  ghost predicate LineInv(g: Grid, k: Pos, i: int, j: int, info: CheckInfo)
    requires ValidGrid(g) && HasFigure(g, k)
  {
    forall t :: t in info.line ==>
      exists q :: Scanned(q, i, j) && GivesCheck(g, k, q) && !Leaper(g, q) && t in Line(g, k, q)
  }

  /** Without a pawn or knight check so far, the line is exactly the union of
      the walks of the sliders seen to check. */
  ghost predicate UnionInv(g: Grid, k: Pos, i: int, j: int, info: CheckInfo)
    requires ValidGrid(g) && HasFigure(g, k)
  {
    (forall q :: Scanned(q, i, j) && GivesCheck(g, k, q) ==> !Leaper(g, q)) ==>
      forall t :: t in info.line <==>
        exists q :: Scanned(q, i, j) && GivesCheck(g, k, q) && t in Line(g, k, q)
  }

  lemma AttackerStep(g: Grid, k: Pos, i: int, j: int, info: CheckInfo)
    requires ValidGrid(g) && HasFigure(g, k) && 0 <= i < Size && 0 <= j < Size
    requires AttackerInv(g, k, i, j, info)
    ensures AttackerInv(g, k, i, j + 1, CheckStep(g, k, Pos(i, j), info))
  {
    var p := Pos(i, j);
    CheckStepMeaning(g, k, p, info);
    if !GivesCheck(g, k, p) {
      forall q | Scanned(q, i, j + 1) && GivesCheck(g, k, q) ensures Scanned(q, i, j) { }
    } else {
      forall q | Scanned(q, i, j + 1) && GivesCheck(g, k, q) ensures q == p || Before(q, p) { }
    }
  }

  lemma LineStep(g: Grid, k: Pos, i: int, j: int, info: CheckInfo)
    requires ValidGrid(g) && HasFigure(g, k) && 0 <= i < Size && 0 <= j < Size
    requires LineInv(g, k, i, j, info)
    ensures LineInv(g, k, i, j + 1, CheckStep(g, k, Pos(i, j), info))
  {
    var p := Pos(i, j);
    CheckStepMeaning(g, k, p, info);
    var info' := CheckStep(g, k, p, info);
    forall t | t in info'.line
      ensures exists q :: Scanned(q, i, j + 1) && GivesCheck(g, k, q) && !Leaper(g, q) && t in Line(g, k, q)
    {
      if t in info.line {
        var q :| Scanned(q, i, j) && GivesCheck(g, k, q) && !Leaper(g, q) && t in Line(g, k, q);
        assert Scanned(q, i, j + 1);
      } else {
        assert Scanned(p, i, j + 1) && t in Line(g, k, p);
      }
    }
  }

  lemma UnionStep(g: Grid, k: Pos, i: int, j: int, info: CheckInfo)
    requires ValidGrid(g) && HasFigure(g, k) && 0 <= i < Size && 0 <= j < Size
    requires UnionInv(g, k, i, j, info)
    ensures UnionInv(g, k, i, j + 1, CheckStep(g, k, Pos(i, j), info))
  {
    var p := Pos(i, j);
    CheckStepMeaning(g, k, p, info);
    var info' := CheckStep(g, k, p, info);
    if forall q :: Scanned(q, i, j + 1) && GivesCheck(g, k, q) ==> !Leaper(g, q) {
      forall q | Scanned(q, i, j) && GivesCheck(g, k, q) ensures !Leaper(g, q) {
        assert Scanned(q, i, j + 1);
      }
      forall t
        ensures t in info'.line <==>
          exists q :: Scanned(q, i, j + 1) && GivesCheck(g, k, q) && t in Line(g, k, q)
      {
        if exists q :: Scanned(q, i, j + 1) && GivesCheck(g, k, q) && t in Line(g, k, q) {
          var q :| Scanned(q, i, j + 1) && GivesCheck(g, k, q) && t in Line(g, k, q);
          if q != p {
            assert Scanned(q, i, j);
          }
        }
        if t in info.line {
          var q :| Scanned(q, i, j) && GivesCheck(g, k, q) && t in Line(g, k, q);
          assert Scanned(q, i, j + 1);
        }
      }
    }
  }

  /** Moving from the end of one file to the start of the next scans no new
      checker: every checker is on the board. */
  lemma FileStep(g: Grid, k: Pos, i: int, info: CheckInfo)
    requires ValidGrid(g) && HasFigure(g, k) && 0 <= i < Size
    ensures AttackerInv(g, k, i, Size, info) ==> AttackerInv(g, k, i + 1, 0, info)
    ensures LineInv(g, k, i, Size, info) ==> LineInv(g, k, i + 1, 0, info)
    ensures UnionInv(g, k, i, Size, info) ==> UnionInv(g, k, i + 1, 0, info)
  {
    assert forall q :: GivesCheck(g, k, q) ==> (Scanned(q, i + 1, 0) <==> Scanned(q, i, Size));
  }

  lemma {:induction false} CheckedFromAttacker(g: Grid, k: Pos, i: int, j: int, info: CheckInfo)
    requires ValidGrid(g) && HasFigure(g, k) && 0 <= i <= Size && 0 <= j <= Size
    requires i == Size ==> j == 0
    requires AttackerInv(g, k, i, j, info)
    ensures AttackerInv(g, k, Size, 0, CheckedFrom(g, k, i, j, info))
    decreases Size - i, Size - j
  {
    if i == Size {
    } else if j == Size {
      FileStep(g, k, i, info);
      CheckedFromAttacker(g, k, i + 1, 0, info);
    } else {
      AttackerStep(g, k, i, j, info);
      CheckedFromAttacker(g, k, i, j + 1, CheckStep(g, k, Pos(i, j), info));
    }
  }

  lemma {:induction false} CheckedFromLine(g: Grid, k: Pos, i: int, j: int, info: CheckInfo)
    requires ValidGrid(g) && HasFigure(g, k) && 0 <= i <= Size && 0 <= j <= Size
    requires i == Size ==> j == 0
    requires LineInv(g, k, i, j, info)
    ensures LineInv(g, k, Size, 0, CheckedFrom(g, k, i, j, info))
    decreases Size - i, Size - j
  {
    if i == Size {
    } else if j == Size {
      FileStep(g, k, i, info);
      CheckedFromLine(g, k, i + 1, 0, info);
    } else {
      LineStep(g, k, i, j, info);
      CheckedFromLine(g, k, i, j + 1, CheckStep(g, k, Pos(i, j), info));
    }
  }

  lemma {:induction false} CheckedFromUnion(g: Grid, k: Pos, i: int, j: int, info: CheckInfo)
    requires ValidGrid(g) && HasFigure(g, k) && 0 <= i <= Size && 0 <= j <= Size
    requires i == Size ==> j == 0
    requires UnionInv(g, k, i, j, info)
    ensures UnionInv(g, k, Size, 0, CheckedFrom(g, k, i, j, info))
    decreases Size - i, Size - j
  {
    if i == Size {
    } else if j == Size {
      FileStep(g, k, i, info);
      CheckedFromUnion(g, k, i + 1, 0, info);
    } else {
      UnionStep(g, k, i, j, info);
      CheckedFromUnion(g, k, i, j + 1, CheckStep(g, k, Pos(i, j), info));
    }
  }

  /** What get_checked_positions returns, stated over the whole board:
      the attacker is the last checker in scan order (none iff there is no
      checker); a pawn or knight attacker leaves the line empty; a slider
      attacker's walk is in the line but its own square is not on that walk;
      every line square is on a checking slider's walk; and with no pawn or
      knight checking, the line is the union of all checking sliders' walks. */
  lemma CheckedPositionsMeaning(g: Grid, k: Pos)
    requires ValidGrid(g) && HasFigure(g, k)
    ensures var r := CheckedPositions(g, k);
      && (r.attacker.None? <==> forall q :: !GivesCheck(g, k, q))
      && (r.attacker.Some? ==>
            && GivesCheck(g, k, r.attacker.value)
            && forall q :: GivesCheck(g, k, q) ==> q == r.attacker.value || Before(q, r.attacker.value))
      && (r.attacker.Some? && Leaper(g, r.attacker.value) ==> r.line == {})
      && (r.attacker.Some? && !Leaper(g, r.attacker.value) ==>
            Line(g, k, r.attacker.value) <= r.line && r.attacker.value !in Line(g, k, r.attacker.value))
      && (forall t :: t in r.line ==> exists q :: GivesCheck(g, k, q) && !Leaper(g, q) && t in Line(g, k, q))
      && ((forall q :: GivesCheck(g, k, q) ==> !Leaper(g, q)) ==>
            forall t :: t in r.line <==> exists q :: GivesCheck(g, k, q) && t in Line(g, k, q))
      && (r.line != {} ==> r.attacker.Some?)
  {
    var init := CheckInfo({}, None);
    forall q | GivesCheck(g, k, q) ensures !Scanned(q, 0, 0) && Scanned(q, Size, 0) { }
    CheckedFromAttacker(g, k, 0, 0, init);
    CheckedFromLine(g, k, 0, 0, init);
    CheckedFromUnion(g, k, 0, 0, init);
    var r := CheckedPositions(g, k);
    if r.attacker.Some? && HasFigure(g, r.attacker.value) && r.attacker.value != k {
      var a := r.attacker.value;
      WalkAhead(g, a, Direction(k, a), At(g, a).player);
    }
    if r.line != {} {
      var t :| t in r.line;
      var q :| Scanned(q, Size, 0) && GivesCheck(g, k, q) && !Leaper(g, q) && t in Line(g, k, q);
    }
  }

  /** Black rooks on (0, 0) and (0, 5), the white king on (0, 3), and
      nothing else on the board. */
  ghost predicate TwoRooks(g: Grid)
  {
    && ValidGrid(g)
    && g[0][0] == Occupied(Piece(Rook, Black, 0))
    && g[0][5] == Occupied(Piece(Rook, Black, 0))
    && g[0][3] == Occupied(Piece(King, White, 0))
    && forall i, j :: 0 <= i < Size && 0 <= j < Size && !(i == 0 && (j == 0 || j == 3 || j == 5)) ==> g[i][j] == Empty
  }

  /** On that board the rook on (0, 0) walks (0, 1) ... (0, 5): it passes
      the king and stops on the other rook. */
  lemma LowRookChecks(g: Grid)
    requires TwoRooks(g)
    ensures GivesCheck(g, Pos(0, 3), Pos(0, 0)) && Pos(0, 5) in Line(g, Pos(0, 3), Pos(0, 0))
  {
    var d, k, high := Pos(0, 1), Pos(0, 3), Pos(0, 5);
    assert g[0][1] == Empty && g[0][2] == Empty && g[0][4] == Empty;
    assert high in SliderWalk(g, Pos(0, 4), d, Black);
    assert high in SliderWalk(g, Pos(0, 3), d, Black);
    assert {k, high} <= SliderWalk(g, Pos(0, 2), d, Black);
    assert {k, high} <= SliderWalk(g, Pos(0, 1), d, Black);
    assert {k, high} <= SliderWalk(g, Pos(0, 0), d, Black);
    assert Line(g, k, Pos(0, 0)) == SliderWalk(g, Pos(0, 0), d, Black);
    assert IsEnemy(g, Pos(0, 0), White) && Slider(g, Pos(0, 0));
  }

  /** On that board the rook on (0, 5) walks down onto the king. */
  lemma HighRookChecks(g: Grid)
    requires TwoRooks(g)
    ensures GivesCheck(g, Pos(0, 3), Pos(0, 5))
  {
    assert g[0][4] == Empty;
    assert Direction(Pos(0, 3), Pos(0, 5)) == Pos(0, -1);
    assert Pos(0, 3) in SliderWalk(g, Pos(0, 4), Pos(0, -1), Black);
  }

  /** On that board only the two rooks are enemies of the king. */
  lemma OnlyRooksCheck(g: Grid, q: Pos)
    requires TwoRooks(g) && IsEnemy(g, q, White)
    ensures q == Pos(0, 0) || q == Pos(0, 5)
  {
    assert g[q.x][q.y] != Empty;
  }

  /** The line can hold the recorded attacker's own square: the rook on
      (0, 0) is scanned first and walks onto the rook on (0, 5), which is
      scanned later and so becomes the attacker. */
  lemma AttackerSquareInLine(g: Grid)
    requires TwoRooks(g)
    ensures CheckedPositions(g, Pos(0, 3)).attacker == Some(Pos(0, 5))
    ensures Pos(0, 5) in CheckedPositions(g, Pos(0, 3)).line
  {
    var k := Pos(0, 3);
    LowRookChecks(g);
    HighRookChecks(g);
    forall q | GivesCheck(g, k, q)
      ensures !Leaper(g, q) && (q == Pos(0, 0) || q == Pos(0, 5))
    {
      OnlyRooksCheck(g, q);
    }
    CheckedPositionsMeaning(g, k);
  }

  /** Every enemy piece other than a King whose raw moves reach the king is
      recorded as a checker: the sign walk finds every real slider attack. */
  lemma AttackerIsChecker(g: Grid, k: Pos, q: Pos)
    requires ValidGrid(g) && HasFigure(g, k)
    requires IsEnemy(g, q, At(g, k).player) && At(g, q).variant != King
    requires k in BasicMoves(g, q)
    ensures GivesCheck(g, k, q)
  {
    var pc := At(g, q);
    if !Leaper(g, q) {
      var dirs := Directions(pc.variant, pc.player);
      RayWalkMembership(g, q, dirs, MaxStep(pc.variant), k);
      var i :| 0 <= i < |dirs| && k in Ray(g, q, dirs[i], MaxStep(pc.variant));
      RayInWalk(g, q, dirs[i], MaxStep(pc.variant), pc.player, k);
    }
  }

  /** A king in check with no recorded attacker is attacked only by the
      enemy King: that is the one case in which allowed_positions fails. */
  lemma NoAttackerMeansKing(g: Grid, k: Pos, fuel: nat)
    requires ValidGrid(g) && HasFigure(g, k)
    requires IsAttacked(g, k, fuel) == Ok(true) && CheckedPositions(g, k).attacker.None?
    ensures exists q :: (IsEnemy(g, q, At(g, k).player) && At(g, q).variant == King
      && RawMoves(g, q, fuel).Ok? && k in RawMoves(g, q, fuel).value)
  {
    IsAttackedMeaning(g, k, fuel);
    CheckedPositionsMeaning(g, k);
    var q :| IsEnemy(g, q, At(g, k).player) && RawMoves(g, q, fuel).Ok? && k in RawMoves(g, q, fuel).value;
    if At(g, q).variant != King {
      AttackerIsChecker(g, k, q);
      assert false;
    }
  }

  // ---------------------------------------------------------------------
  // get_king

  predicate KingOf(g: Grid, p: Pos, c: Color)
    requires ValidGrid(g)
  {
    HasFigure(g, p) && At(g, p).variant == King && At(g, p).player == c
  }

  /** The king scan from (i, j) on: the first king of colour c in board order. */
  function FindKingFrom(g: Grid, c: Color, i: int, j: int): (r: Result<Pos>)
    requires ValidGrid(g) && 0 <= i <= Size && 0 <= j <= Size
    ensures r.Ok? ==>
      && KingOf(g, r.value, c) && !Scanned(r.value, i, j)
      && forall q :: KingOf(g, q, c) && !Scanned(q, i, j) ==> !Before(q, r.value)
    ensures r.Err? ==> r.error == NoKing && forall q :: KingOf(g, q, c) ==> Scanned(q, i, j)
    decreases Size - i, Size - j
  {
    if i == Size then Err(NoKing)
    else if j == Size then FindKingFrom(g, c, i + 1, 0)
    else if KingOf(g, Pos(i, j), c) then Ok(Pos(i, j))
    else FindKingFrom(g, c, i, j + 1)
  }

  /** get_king: the first king of colour c in board order, or NoKing. */
  function FindKing(g: Grid, c: Color): (r: Result<Pos>)
    requires ValidGrid(g)
    ensures r.Ok? ==> KingOf(g, r.value, c) && forall q :: KingOf(g, q, c) ==> q == r.value || Before(r.value, q)
    ensures r.Err? <==> forall q :: !KingOf(g, q, c)
    ensures r.Err? ==> r.error == NoKing
  {
    FindKingFrom(g, c, 0, 0)
  }

  // ---------------------------------------------------------------------
  // allowed_positions

  /** The friendly non-king pieces of colour c standing on the line: what
      def_fig_count counts. */
  function Defenders(g: Grid, line: set<Pos>, c: Color): (r: set<Pos>)
    requires ValidGrid(g)
    ensures r <= line
    ensures forall t :: t in r <==> t in line && IsFriend(g, t, c) && At(g, t).variant != King
  {
    set t | t in line && HasFigure(g, t) && At(g, t).variant != King && At(g, t).player == c
  }

  /** The attacker's square as a set, once it is recorded. */
  function Recorded(attacker: Option<Pos>): set<Pos>
  {
    if attacker.Some? then {attacker.value} else {}
  }

  /** The raw moves that point from the king in the direction of the
      attacker and lie at a smaller file or a smaller rank than the king. */
  function TowardAttacker(raw: set<Pos>, k: Pos, a: Pos): (r: set<Pos>)
    ensures forall t :: t in r <==>
      t in raw && Direction(k, t) == Direction(k, a) && (t.x < k.x || t.y < k.y)
  {
    set t | t in raw && Direction(k, t) == Direction(k, a) && (t.x < k.x || t.y < k.y)
  }

  /** The branches of BoardFigure.allowed_positions for the piece at p, once
      its king k has been found and whether k is in check is known. In
      check, a King gets its raw moves minus the line and any other piece
      the raw moves toward the attacker that are on the line or on the
      attacker (no recorded attacker is the NoAttacker failure). Out of
      check, a non-king piece standing on a line with fewer than two
      defenders is held to the line and the attacker; everything else gets
      its raw moves. */
  function Filter(g: Grid, p: Pos, fuel: nat, king: Pos, checked: bool): Result<set<Pos>>
    requires ValidGrid(g) && HasFigure(g, p) && HasFigure(g, king)
  {
    var info := CheckedPositions(g, king);
    var defCount := |Defenders(g, info.line, At(g, p).player)|;
    if checked then
      if At(g, p).variant == King then
        var raw :- RawMoves(g, p, fuel);
        Ok(raw - info.line)
      else if info.attacker.None? then Err(NoAttacker)
      else
        var res := TowardAttacker(BasicMoves(g, p), king, info.attacker.value);
        Ok(res * (info.line + {info.attacker.value}))
    else if |info.line| > 0 && p in info.line && At(g, p).variant != King && defCount < 2 then
      Ok(BasicMoves(g, p) * (info.line + Recorded(info.attacker)))
    else RawMoves(g, p, fuel)
  }

  /** BoardFigure.allowed_positions of the piece at p: its king is looked up
      (get_king), then whether that king is in check (is_checked), and then
      the branches above. The line scan and the defender count in between
      cannot fail, so this is also the source's order of failures. */
  function Allowed(g: Grid, p: Pos, fuel: nat): (r: Result<set<Pos>>)
    requires ValidGrid(g) && HasFigure(g, p)
    ensures r.Err? ==> r.error in {NoKing, NoAttacker, OutOfFuel}
  {
    var king :- FindKing(g, At(g, p).player);
    var checked :- IsAttacked(g, king, fuel);
    Filter(g, p, fuel, king, checked)
  }

  /** The legal-move filter only removes moves: whatever it allows, the
      piece's raw moves contain. */
  lemma AllowedWithinRaw(g: Grid, p: Pos, fuel: nat)
    requires ValidGrid(g) && HasFigure(g, p) && Allowed(g, p, fuel).Ok?
    ensures RawMoves(g, p, fuel).Ok? && Allowed(g, p, fuel).value <= RawMoves(g, p, fuel).value
  {
    var k := FindKing(g, At(g, p).player).value;
    var checked := IsAttacked(g, k, fuel).value;
    assert Allowed(g, p, fuel) == Filter(g, p, fuel, k, checked);
  }

  /** In check, a King may not step onto any square of the checking line, so
      when a slider gives the check the King cannot retreat along its walk. */
  lemma KingInCheckLeavesLine(g: Grid, p: Pos, k: Pos, fuel: nat)
    requires ValidGrid(g) && HasFigure(g, p) && At(g, p).variant == King
    requires FindKing(g, At(g, p).player) == Ok(k) && IsAttacked(g, k, fuel) == Ok(true)
    requires RawMoves(g, p, fuel).Ok?
    ensures Allowed(g, p, fuel).Ok?
    ensures var info := CheckedPositions(g, k);
      && Allowed(g, p, fuel).value == RawMoves(g, p, fuel).value - info.line
      && (info.attacker.Some? && !Leaper(g, info.attacker.value) ==>
            Allowed(g, p, fuel).value !! Line(g, k, info.attacker.value))
  {
    assert Allowed(g, p, fuel) == Filter(g, p, fuel, k, true);
    CheckedPositionsMeaning(g, k);
  }

  /** In check, any other piece may move only toward the attacker, and only
      onto the line or the attacker; when a pawn or knight gives the check,
      that leaves capturing it as the only option. */
  lemma BlockOrCapture(g: Grid, p: Pos, k: Pos, fuel: nat)
    requires ValidGrid(g) && HasFigure(g, p) && At(g, p).variant != King
    requires FindKing(g, At(g, p).player) == Ok(k) && IsAttacked(g, k, fuel) == Ok(true)
    ensures var info := CheckedPositions(g, k);
      && (info.attacker.None? <==> Allowed(g, p, fuel) == Err(NoAttacker))
      && (info.attacker.Some? ==> var a := info.attacker.value;
            && Allowed(g, p, fuel).Ok?
            && (forall t :: t in Allowed(g, p, fuel).value <==>
                  && t in BasicMoves(g, p) && Direction(k, t) == Direction(k, a)
                  && (t.x < k.x || t.y < k.y) && (t in info.line || t == a))
            && (Leaper(g, a) ==> Allowed(g, p, fuel).value <= {a}))
  {
    assert Allowed(g, p, fuel) == Filter(g, p, fuel, k, true);
    CheckedPositionsMeaning(g, k);
  }

  /** The failure for a missing attacker arises only when the enemy King is
      the piece whose raw moves reach the king. */
  lemma NoAttackerOnlyFromKing(g: Grid, p: Pos, fuel: nat)
    requires ValidGrid(g) && HasFigure(g, p) && Allowed(g, p, fuel) == Err(NoAttacker)
    ensures FindKing(g, At(g, p).player).Ok?
    ensures var k := FindKing(g, At(g, p).player).value;
      exists q :: (IsEnemy(g, q, At(g, p).player) && At(g, q).variant == King
        && RawMoves(g, q, fuel).Ok? && k in RawMoves(g, q, fuel).value)
  {
    var k := FindKing(g, At(g, p).player).value;
    var checked := IsAttacked(g, k, fuel).value;
    assert Allowed(g, p, fuel) == Filter(g, p, fuel, k, checked);
    NoAttackerMeansKing(g, k, fuel);
  }

  /** Out of check, a non-king piece on the line with fewer than two
      defenders there is pinned: it may move only onto the line or onto the
      recorded attacker. Any other piece out of check keeps its raw moves. */
  lemma PinnedPiece(g: Grid, p: Pos, k: Pos, fuel: nat)
    requires ValidGrid(g) && HasFigure(g, p)
    requires FindKing(g, At(g, p).player) == Ok(k) && IsAttacked(g, k, fuel) == Ok(false)
    ensures var info := CheckedPositions(g, k);
      var pinned := p in info.line && At(g, p).variant != King
        && |Defenders(g, info.line, At(g, p).player)| < 2;
      && (pinned ==>
            && info.attacker.Some?
            && Allowed(g, p, fuel) == Ok(BasicMoves(g, p) * (info.line + {info.attacker.value})))
      && (!pinned ==> Allowed(g, p, fuel) == RawMoves(g, p, fuel))
  {
    assert Allowed(g, p, fuel) == Filter(g, p, fuel, k, false);
    CheckedPositionsMeaning(g, k);
  }

  // ---------------------------------------------------------------------
  // is_mated

  /** The first loop of is_mated from (i, j) on: the union, into acc, of the
      allowed moves of every piece of colour c, failing at the first piece
      whose allowed moves fail. */
  function AllowedFrom(g: Grid, c: Color, fuel: nat, i: int, j: int, acc: set<Pos>): (r: Result<set<Pos>>)
    requires ValidGrid(g) && 0 <= i <= Size && 0 <= j <= Size
    ensures r.Err? ==> r.error in {NoKing, NoAttacker, OutOfFuel}
    decreases Size - i, Size - j
  {
    if i == Size then Ok(acc)
    else if j == Size then AllowedFrom(g, c, fuel, i + 1, 0, acc)
    else if IsFriend(g, Pos(i, j), c) then
      var moves :- Allowed(g, Pos(i, j), fuel);
      AllowedFrom(g, c, fuel, i, j + 1, acc + moves)
    else AllowedFrom(g, c, fuel, i, j + 1, acc)
  }

  /** Every piece of colour c not yet scanned at (i, j) has its allowed moves. */
  ghost predicate Ready(g: Grid, c: Color, fuel: nat, i: int, j: int)
    requires ValidGrid(g)
  {
    forall q {:trigger Allowed(g, q, fuel)} :: !Scanned(q, i, j) && IsFriend(g, q, c) ==> Allowed(g, q, fuel).Ok?
  }

  lemma ReadyStep(g: Grid, c: Color, fuel: nat, i: int, j: int)
    requires ValidGrid(g) && 0 <= i < Size && 0 <= j < Size
    ensures Ready(g, c, fuel, i, j) <==>
      (IsFriend(g, Pos(i, j), c) ==> Allowed(g, Pos(i, j), fuel).Ok?) && Ready(g, c, fuel, i, j + 1)
  {
    assert forall q :: !Scanned(q, i, j) <==> q == Pos(i, j) || !Scanned(q, i, j + 1);
  }

  lemma ReadyWrap(g: Grid, c: Color, fuel: nat, i: int)
    requires ValidGrid(g) && 0 <= i < Size
    ensures Ready(g, c, fuel, i, Size) <==> Ready(g, c, fuel, i + 1, 0)
  {
    assert forall q :: IsFriend(g, q, c) ==> (Scanned(q, i + 1, 0) <==> Scanned(q, i, Size));
  }

  /** Past the last file every piece has been scanned. */
  lemma ReadyAtEnd(g: Grid, c: Color, fuel: nat, j: int)
    requires ValidGrid(g) && 0 <= j <= Size
    ensures Ready(g, c, fuel, Size, j)
  {
    assert forall q :: !Scanned(q, Size, j) ==> !InBounds(q);
  }

  /** The scan from (i, j) succeeds iff every piece of colour c not yet
      scanned has its allowed moves. */
  lemma {:induction false} AllowedFromSucceeds(g: Grid, c: Color, fuel: nat, i: int, j: int, acc: set<Pos>)
    requires ValidGrid(g) && 0 <= i <= Size && 0 <= j <= Size
    ensures AllowedFrom(g, c, fuel, i, j, acc).Ok? <==> Ready(g, c, fuel, i, j)
    decreases Size - i, Size - j, 1
  {
    if i == Size {
      ReadyAtEnd(g, c, fuel, j);
    } else if j == Size {
      AllowedFromSucceeds(g, c, fuel, i + 1, 0, acc);
      ReadyWrap(g, c, fuel, i);
    } else {
      SucceedsAt(g, c, fuel, i, j, acc);
    }
  }

  /** One on-board step of the is_mated scan. */
  lemma AllowedFromStep(g: Grid, c: Color, fuel: nat, i: int, j: int, acc: set<Pos>)
    requires ValidGrid(g) && 0 <= i < Size && 0 <= j < Size
    ensures !IsFriend(g, Pos(i, j), c) ==>
      AllowedFrom(g, c, fuel, i, j, acc) == AllowedFrom(g, c, fuel, i, j + 1, acc)
    ensures IsFriend(g, Pos(i, j), c) && Allowed(g, Pos(i, j), fuel).Ok? ==>
      AllowedFrom(g, c, fuel, i, j, acc) == AllowedFrom(g, c, fuel, i, j + 1, acc + Allowed(g, Pos(i, j), fuel).value)
    ensures IsFriend(g, Pos(i, j), c) && Allowed(g, Pos(i, j), fuel).Err? ==>
      AllowedFrom(g, c, fuel, i, j, acc) == Err(Allowed(g, Pos(i, j), fuel).error)
  {
  }

  /** The accumulator the scan carries past (i, j) when it goes on. */
  function ScanNext(g: Grid, c: Color, fuel: nat, i: int, j: int, acc: set<Pos>): set<Pos>
    requires ValidGrid(g)
  {
    var p := Pos(i, j);
    if IsFriend(g, p, c) && Allowed(g, p, fuel).Ok? then acc + Allowed(g, p, fuel).value else acc
  }

  /** The step of AllowedFromSucceeds at an on-board square (i, j). */
  lemma {:induction false} SucceedsAt(g: Grid, c: Color, fuel: nat, i: int, j: int, acc: set<Pos>)
    requires ValidGrid(g) && 0 <= i < Size && 0 <= j < Size
    ensures AllowedFrom(g, c, fuel, i, j, acc).Ok? <==> Ready(g, c, fuel, i, j)
    decreases Size - i, Size - j, 0
  {
    AllowedFromSucceeds(g, c, fuel, i, j + 1, ScanNext(g, c, fuel, i, j, acc));
    SucceedsStep(g, c, fuel, i, j, acc);
  }

  /** If the rest of the scan succeeds exactly when the rest of the pieces
      have their allowed moves, so does the scan from (i, j). */
  lemma SucceedsStep(g: Grid, c: Color, fuel: nat, i: int, j: int, acc: set<Pos>)
    requires ValidGrid(g) && 0 <= i < Size && 0 <= j < Size
    requires AllowedFrom(g, c, fuel, i, j + 1, ScanNext(g, c, fuel, i, j, acc)).Ok? <==> Ready(g, c, fuel, i, j + 1)
    ensures AllowedFrom(g, c, fuel, i, j, acc).Ok? <==> Ready(g, c, fuel, i, j)
  {
    ReadyStep(g, c, fuel, i, j);
    AllowedFromStep(g, c, fuel, i, j, acc);
  }

  /** t is an allowed move of some piece of colour c not yet scanned at (i, j). */
  ghost predicate Gathered(g: Grid, c: Color, fuel: nat, i: int, j: int, t: Pos)
    requires ValidGrid(g)
  {
    exists q {:trigger Allowed(g, q, fuel)} :: !Scanned(q, i, j) && IsFriend(g, q, c)
      && Allowed(g, q, fuel).Ok? && t in Allowed(g, q, fuel).value
  }

  lemma GatheredStep(g: Grid, c: Color, fuel: nat, i: int, j: int, t: Pos)
    requires ValidGrid(g) && 0 <= i < Size && 0 <= j < Size
    ensures Gathered(g, c, fuel, i, j, t) <==>
      (IsFriend(g, Pos(i, j), c) && Allowed(g, Pos(i, j), fuel).Ok? && t in Allowed(g, Pos(i, j), fuel).value)
      || Gathered(g, c, fuel, i, j + 1, t)
  {
    assert forall q :: !Scanned(q, i, j) <==> q == Pos(i, j) || !Scanned(q, i, j + 1);
  }

  lemma GatheredWrap(g: Grid, c: Color, fuel: nat, i: int, t: Pos)
    requires ValidGrid(g) && 0 <= i < Size
    ensures Gathered(g, c, fuel, i, Size, t) <==> Gathered(g, c, fuel, i + 1, 0, t)
  {
    assert forall q :: IsFriend(g, q, c) ==> (Scanned(q, i + 1, 0) <==> Scanned(q, i, Size));
  }

  /** A successful scan from (i, j) adds to acc exactly the allowed moves
      of the pieces of colour c not yet scanned. */
  lemma {:induction false} AllowedFromMeaning(g: Grid, c: Color, fuel: nat, i: int, j: int, acc: set<Pos>)
    requires ValidGrid(g) && 0 <= i <= Size && 0 <= j <= Size
    ensures var r := AllowedFrom(g, c, fuel, i, j, acc);
      r.Ok? ==> forall t :: t in r.value <==> t in acc || Gathered(g, c, fuel, i, j, t)
    decreases Size - i, Size - j, 1
  {
    if i == Size {
      assert forall t :: !Gathered(g, c, fuel, i, j, t);
    } else if j == Size {
      AllowedFromMeaning(g, c, fuel, i + 1, 0, acc);
      forall t ensures Gathered(g, c, fuel, i, Size, t) <==> Gathered(g, c, fuel, i + 1, 0, t) {
        GatheredWrap(g, c, fuel, i, t);
      }
    } else {
      MeaningAt(g, c, fuel, i, j, acc);
    }
  }

  /** The step of AllowedFromMeaning at an on-board square (i, j). */
  lemma {:induction false} MeaningAt(g: Grid, c: Color, fuel: nat, i: int, j: int, acc: set<Pos>)
    requires ValidGrid(g) && 0 <= i < Size && 0 <= j < Size
    ensures var r := AllowedFrom(g, c, fuel, i, j, acc);
      r.Ok? ==> forall t :: t in r.value <==> t in acc || Gathered(g, c, fuel, i, j, t)
    decreases Size - i, Size - j, 0
  {
    AllowedFromStep(g, c, fuel, i, j, acc);
    var p := Pos(i, j);
    forall t ensures Gathered(g, c, fuel, i, j, t) <==>
      (IsFriend(g, p, c) && Allowed(g, p, fuel).Ok? && t in Allowed(g, p, fuel).value)
      || Gathered(g, c, fuel, i, j + 1, t)
    {
      GatheredStep(g, c, fuel, i, j, t);
    }
    if IsFriend(g, p, c) && Allowed(g, p, fuel).Ok? {
      AllowedFromMeaning(g, c, fuel, i, j + 1, acc + Allowed(g, p, fuel).value);
    } else if !IsFriend(g, p, c) {
      AllowedFromMeaning(g, c, fuel, i, j + 1, acc);
    }
  }

  /** The union of the allowed moves of every piece of colour c. */
  function SideMoves(g: Grid, c: Color, fuel: nat): (r: Result<set<Pos>>)
    requires ValidGrid(g)
    ensures r.Err? ==> r.error in {NoKing, NoAttacker, OutOfFuel}
  {
    AllowedFrom(g, c, fuel, 0, 0, {})
  }

  /** The union, over the whole board: it is computed iff every piece of
      colour c has its allowed moves, and then holds exactly those moves. */
  lemma SideMovesMeaning(g: Grid, c: Color, fuel: nat)
    requires ValidGrid(g)
    ensures var r := SideMoves(g, c, fuel);
      && (r.Ok? <==> forall q {:trigger Allowed(g, q, fuel)} :: IsFriend(g, q, c) ==> Allowed(g, q, fuel).Ok?)
      && (r.Ok? ==> forall t :: t in r.value <==>
            exists q {:trigger Allowed(g, q, fuel)} :: IsFriend(g, q, c) && Allowed(g, q, fuel).Ok? && t in Allowed(g, q, fuel).value)
  {
    AllowedFromSucceeds(g, c, fuel, 0, 0, {});
    AllowedFromMeaning(g, c, fuel, 0, 0, {});
    assert forall q :: IsFriend(g, q, c) ==> !Scanned(q, 0, 0);
  }

  /** is_mated of the king at k: false when k is not attacked; otherwise
      whether the allowed moves of all of k's side land only on squares
      their own side occupies. Looking up an off-board square among those
      moves (a pawn's unchecked forward square) is the OffBoardLookup
      failure. */
  function Mated(g: Grid, k: Pos, fuel: nat): (r: Result<bool>)
    requires ValidGrid(g) && HasFigure(g, k)
    ensures IsAttacked(g, k, fuel) == Ok(false) ==> r == Ok(false)
    ensures r == Ok(true) ==> IsAttacked(g, k, fuel) == Ok(true)
  {
    var checked :- IsAttacked(g, k, fuel);
    if !checked then Ok(false)
    else
      var allowed :- SideMoves(g, At(g, k).player, fuel);
      if exists t :: t in allowed && !InBounds(t) then Err(OffBoardLookup)
      else Ok(forall t :: t in allowed ==> IsFriend(g, t, At(g, k).player))
  }

  /** Mate means every piece of the king's side has allowed moves and none
      of them leaves the side's own squares. */
  lemma MatedMeansNoEscape(g: Grid, k: Pos, fuel: nat, q: Pos)
    requires ValidGrid(g) && HasFigure(g, k) && Mated(g, k, fuel) == Ok(true)
    requires IsFriend(g, q, At(g, k).player)
    ensures Allowed(g, q, fuel).Ok?
    ensures forall t :: t in Allowed(g, q, fuel).value ==> IsFriend(g, t, At(g, k).player)
  {
    SideMovesMeaning(g, At(g, k).player, fuel);
  }

  /** A checked king that is not mated has a piece on its side with an
      allowed move onto an on-board square its side does not occupy. */
  lemma NotMatedHasEscape(g: Grid, k: Pos, fuel: nat)
    requires ValidGrid(g) && HasFigure(g, k)
    requires IsAttacked(g, k, fuel) == Ok(true) && Mated(g, k, fuel) == Ok(false)
    ensures exists q, t :: (IsFriend(g, q, At(g, k).player) && Allowed(g, q, fuel).Ok?
      && t in Allowed(g, q, fuel).value && InBounds(t) && !IsFriend(g, t, At(g, k).player))
  {
    var c := At(g, k).player;
    SideMovesMeaning(g, c, fuel);
    var allowed := SideMoves(g, c, fuel).value;
    var t :| t in allowed && !IsFriend(g, t, c);
    var q :| IsFriend(g, q, c) && Allowed(g, q, fuel).Ok? && t in Allowed(g, q, fuel).value;
  }

  /** The off-board failure comes from an allowed move that leaves the board. */
  lemma OffBoardFromAllowed(g: Grid, k: Pos, fuel: nat)
    requires ValidGrid(g) && HasFigure(g, k) && Mated(g, k, fuel) == Err(OffBoardLookup)
    ensures exists q, t :: (IsFriend(g, q, At(g, k).player) && Allowed(g, q, fuel).Ok?
      && t in Allowed(g, q, fuel).value && !InBounds(t))
  {
    var c := At(g, k).player;
    SideMovesMeaning(g, c, fuel);
    var allowed := SideMoves(g, c, fuel).value;
    var t :| t in allowed && !InBounds(t);
    var q :| IsFriend(g, q, c) && Allowed(g, q, fuel).Ok? && t in Allowed(g, q, fuel).value;
  }

  // ---------------------------------------------------------------------
  // The loops of the source, proved equal to the functions above.

  /** One step of the walk: the next square is walked, and so is the rest of
      the walk from it when it is on the board and free of the walker's own
      pieces. */
  lemma WalkAdvance(g: Grid, cur: Pos, d: Pos, own: Color, walked: set<Pos>, total: set<Pos>)
    requires ValidGrid(g) && InBounds(cur) && Unit(d)
    requires walked + SliderWalk(g, cur, d, own) == total
    ensures var next := Pos(cur.x + d.x, cur.y + d.y);
      if !InBounds(next) || IsFriend(g, next, own) then walked + {next} == total
      else walked + {next} + SliderWalk(g, next, d, own) == total
  {
    var next := Pos(cur.x + d.x, cur.y + d.y);
    if InBounds(next) && !IsFriend(g, next, own) {
      assert SliderWalk(g, cur, d, own) == {next} + SliderWalk(g, next, d, own);
    }
  }

  /** The while walk of get_checked_positions. */
  method WalkLine(g: Grid, from: Pos, d: Pos, own: Color) returns (pos: set<Pos>)
    requires ValidGrid(g) && InBounds(from) && Unit(d)
    ensures pos == SliderWalk(g, from, d, own)
  {
    ghost var total := SliderWalk(g, from, d, own);
    pos := {};
    var x, y := from.x, from.y;
    while Get(g, Pos(x, y)).Some?
      invariant InBounds(Pos(x, y)) ==> pos + SliderWalk(g, Pos(x, y), d, own) == total
      invariant !InBounds(Pos(x, y)) ==> pos == total
      decreases if InBounds(Pos(x, y)) then Room(Pos(x, y), d) + 1 else 0
    {
      WalkAdvance(g, Pos(x, y), d, own, pos, total);
      x, y := x + d.x, y + d.y;
      pos := pos + {Pos(x, y)};
      var newPos := Get(g, Pos(x, y));
      if newPos.Some? && newPos.value.Occupied? && newPos.value.piece.player == own {
        break;
      }
    }
  }

  /** One file (the j loop) of get_checked_positions. */
  method CheckedScanFile(g: Grid, k: Pos, i: int, line: set<Pos>, attacker: Option<Pos>)
    returns (line': set<Pos>, attacker': Option<Pos>)
    requires ValidGrid(g) && HasFigure(g, k) && 0 <= i < Size
    ensures CheckedFrom(g, k, i + 1, 0, CheckInfo(line', attacker'))
      == CheckedFrom(g, k, i, 0, CheckInfo(line, attacker))
  {
    line', attacker' := line, attacker;
    var c := At(g, k).player;
    for j := 0 to Size
      invariant CheckedFrom(g, k, i, j, CheckInfo(line', attacker'))
        == CheckedFrom(g, k, i, 0, CheckInfo(line, attacker))
    {
      var q := Pos(i, j);
      var cell := Get(g, q);
      if cell.value.Occupied? && cell.value.piece.player != c {
        var fig := cell.value.piece;
        if fig.variant == Pawn || fig.variant == Knight {
          var pos := BasicAllowedPositions(g, q);
          if k in pos {
            line', attacker' := {}, Some(q);
          }
        } else if fig.variant != King {
          var pos := WalkLine(g, q, Direction(k, q), fig.player);
          if k in pos {
            line', attacker' := line' + pos, Some(q);
          }
        }
      }
    }
  }

  /** King.get_checked_positions, step by step. */
  method GetCheckedPositions(g: Grid, k: Pos) returns (line: set<Pos>, attacker: Option<Pos>)
    requires ValidGrid(g) && HasFigure(g, k)
    ensures CheckInfo(line, attacker) == CheckedPositions(g, k)
  {
    line, attacker := {}, None;
    for i := 0 to Size
      invariant CheckedFrom(g, k, i, 0, CheckInfo(line, attacker)) == CheckedPositions(g, k)
    {
      line, attacker := CheckedScanFile(g, k, i, line, attacker);
    }
  }

  /** Board.get_king: the field scan that returns the first king of colour c. */
  method GetKing(g: Grid, c: Color) returns (r: Result<Pos>)
    requires ValidGrid(g)
    ensures r == FindKing(g, c)
  {
    for i := 0 to Size
      invariant FindKingFrom(g, c, i, 0) == FindKing(g, c)
    {
      for j := 0 to Size
        invariant FindKingFrom(g, c, i, j) == FindKing(g, c)
      {
        var cell := Get(g, Pos(i, j));
        if cell.value.Occupied? && cell.value.piece.variant == King && cell.value.piece.player == c {
          return Ok(Pos(i, j));
        }
      }
    }
    return Err(NoKing);
  }

  /** The def_fig_count loop of allowed_positions. */
  method DefenderCount(g: Grid, line: set<Pos>, c: Color) returns (n: nat)
    requires ValidGrid(g)
    ensures n == |Defenders(g, line, c)|
  {
    n := 0;
    var rest := line;
    ghost var seen: set<Pos> := {};
    while rest != {}
      invariant rest <= line
      invariant seen == Defenders(g, line - rest, c) && n == |seen|
      decreases |rest|
    {
      var f :| f in rest;
      var cell := Get(g, f);
      if cell.Some? && cell.value.Occupied? && cell.value.piece.variant != King && cell.value.piece.player == c {
        n := n + 1;
        seen := seen + {f};
      }
      rest := rest - {f};
    }
    assert line - rest == line;
  }

  /** The candidate loop of allowed_positions for a piece other than the
      King, in check. */
  method FilterTowardAttacker(raw: set<Pos>, k: Pos, a: Pos) returns (res: set<Pos>)
    ensures res == TowardAttacker(raw, k, a)
  {
    res := {};
    var kingEnemyDir := Direction(k, a);
    var rest := raw;
    while rest != {}
      invariant rest <= raw
      invariant forall t :: t in res <==>
        t in raw && t !in rest && Direction(k, t) == kingEnemyDir && (t.x < k.x || t.y < k.y)
      decreases |rest|
    {
      var candidate :| candidate in rest;
      var candidateEnemyDir := Direction(k, candidate);
      if candidateEnemyDir == kingEnemyDir && (candidate.x < k.x || candidate.y < k.y) {
        res := res + {candidate};
      }
      rest := rest - {candidate};
    }
  }

  /** The branches of allowed_positions once the king, the line, the
      defender count and the check are known. */
  method FilterMoves(g: Grid, p: Pos, fuel: nat, king: Pos, checked: bool) returns (r: Result<set<Pos>>)
    requires ValidGrid(g) && HasFigure(g, p) && HasFigure(g, king)
    ensures r == Filter(g, p, fuel, king, checked)
  {
    var fig := At(g, p);
    var line, attacker := GetCheckedPositions(g, king);
    var defFigCount := DefenderCount(g, line, fig.player);
    if checked {
      if fig.variant == King {
        var raw := CalcAllowedPositions(g, p, fuel);
        if raw.Err? {
          return Err(raw.error);
        }
        return Ok(raw.value - line);
      }
      if attacker.None? {
        return Err(NoAttacker);
      }
      var raw := BasicAllowedPositions(g, p);
      var res := FilterTowardAttacker(raw, king, attacker.value);
      return Ok(res * (line + {attacker.value}));
    }
    if |line| > 0 && p in line && fig.variant != King && defFigCount < 2 {
      var raw := BasicAllowedPositions(g, p);
      return Ok(raw * (line + Recorded(attacker)));
    }
    r := CalcAllowedPositions(g, p, fuel);
  }

  /** BoardFigure.allowed_positions, step by step. */
  method AllowedPositions(g: Grid, p: Pos, fuel: nat) returns (r: Result<set<Pos>>)
    requires ValidGrid(g) && HasFigure(g, p)
    ensures r == Allowed(g, p, fuel)
  {
    var king := GetKing(g, At(g, p).player);
    if king.Err? {
      return Err(king.error);
    }
    var checked := IsAttackedScan(g, king.value, fuel);
    if checked.Err? {
      return Err(checked.error);
    }
    r := FilterMoves(g, p, fuel, king.value, checked.value);
  }

  /** One file of the first loop of is_mated. */
  method SideMovesFile(g: Grid, c: Color, fuel: nat, i: int, acc: set<Pos>) returns (r: Result<set<Pos>>)
    requires ValidGrid(g) && 0 <= i < Size
    ensures r.Err? ==> r == AllowedFrom(g, c, fuel, i, 0, acc)
    ensures r.Ok? ==> AllowedFrom(g, c, fuel, i + 1, 0, r.value) == AllowedFrom(g, c, fuel, i, 0, acc)
  {
    var allowedPos := acc;
    for j := 0 to Size
      invariant AllowedFrom(g, c, fuel, i, j, allowedPos) == AllowedFrom(g, c, fuel, i, 0, acc)
    {
      AllowedFromStep(g, c, fuel, i, j, allowedPos);
      var cell := Get(g, Pos(i, j));
      if cell.value.Occupied? && cell.value.piece.player == c {
        var moves := AllowedPositions(g, Pos(i, j), fuel);
        if moves.Err? {
          return Err(moves.error);
        }
        allowedPos := allowedPos + moves.value;
      }
    }
    return Ok(allowedPos);
  }

  /** King.is_mated, step by step: the attack test, the union loop and the
      removal loop over a copy of the union. */
  method IsMated(g: Grid, k: Pos, fuel: nat) returns (r: Result<bool>)
    requires ValidGrid(g) && HasFigure(g, k)
    ensures r == Mated(g, k, fuel)
  {
    var c := At(g, k).player;
    var checked := IsAttackedScan(g, k, fuel);
    if checked.Err? {
      return Err(checked.error);
    }
    if !checked.value {
      return Ok(false);
    }
    var allowedPos: set<Pos> := {};
    for i := 0 to Size
      invariant AllowedFrom(g, c, fuel, i, 0, allowedPos) == SideMoves(g, c, fuel)
    {
      var file := SideMovesFile(g, c, fuel, i, allowedPos);
      if file.Err? {
        return Err(file.error);
      }
      allowedPos := file.value;
    }
    var remaining := allowedPos;
    var rest := allowedPos;
    while rest != {}
      invariant rest <= remaining <= allowedPos
      invariant forall t :: t in allowedPos - rest ==> InBounds(t) && (t in remaining <==> !IsFriend(g, t, c))
      decreases |rest|
    {
      var pos :| pos in rest;
      var cell := Get(g, pos);
      if cell.None? {
        return Err(OffBoardLookup);
      }
      if cell.value.Occupied? && cell.value.piece.player == c {
        remaining := remaining - {pos};
      }
      rest := rest - {pos};
    }
    return Ok(|remaining| == 0);
  }
}
