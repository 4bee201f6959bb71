/** Board geometry shared by the move generators (figures.py): the sign
    direction between two squares, the per-variant direction and max-step
    tables, and the ray walk used by Rook, Bishop, Knight, Queen and the
    King's raw step. */
module Rays {
  import opened Chess

  /** `norm` in _get_direction: x // abs(x), an exact division, i.e. the sign of x. */
  function Sign(x: int): (s: int)
    ensures s == 0 <==> x == 0
    ensures s == 1 <==> x > 0
    ensures s == -1 <==> x < 0
  {
    if x == 0 then 0 else if x > 0 then 1 else -1
  }

  /** _get_direction(a, b): the component-wise sign of a - b. */
  function Direction(a: Pos, b: Pos): (d: Pos)
    ensures -1 <= d.x <= 1 && -1 <= d.y <= 1
    ensures d == Pos(0, 0) <==> a == b
    ensures d.x * (a.x - b.x) >= 0 && d.y * (a.y - b.y) >= 0
    ensures (d.x == 0 <==> a.x == b.x) && (d.y == 0 <==> a.y == b.y)
  {
    Pos(Sign(a.x - b.x), Sign(a.y - b.y))
  }

  /** A unit step: each component in {-1, 0, 1}, not both zero. */
  predicate Unit(d: Pos)
  {
    -1 <= d.x <= 1 && -1 <= d.y <= 1 && d != Pos(0, 0)
  }

  /** The square k steps from p along d, taken one step at a time (no step
      for k <= 0). */
  function Shift(p: Pos, d: Pos, k: int): Pos
    decreases if k > 0 then k else 0
  {
    if k <= 0 then p else Shift(Pos(p.x + d.x, p.y + d.y), d, k - 1)
  }

  lemma ShiftNext(p: Pos, d: Pos, k: int)
    requires k >= 0
    ensures Shift(Pos(p.x + d.x, p.y + d.y), d, k) == Shift(p, d, k + 1)
  {
  }

  // ---------------------------------------------------------------------
  // Direction and max-step tables of the piece constructors.

  /** The pawn's forward rank step: -1 for white, +1 for black. */
  function Forward(c: Color): (idx: int)
    ensures c == White ==> idx == -1
    ensures c == Black ==> idx == 1
  {
    if c == White then -1 else 1
  }

  const RookDirs: seq<Pos> := [Pos(1, 0), Pos(-1, 0), Pos(0, -1), Pos(0, 1)]
  const BishopDirs: seq<Pos> := [Pos(-1, 1), Pos(1, -1), Pos(-1, -1), Pos(1, 1)]
  const KnightDirs: seq<Pos> :=
    [Pos(2, 1), Pos(1, 2), Pos(-1, 2), Pos(2, -1), Pos(1, -2), Pos(-2, 1), Pos(-1, -2), Pos(-2, -1)]
  const QueenDirs: seq<Pos> :=
    [Pos(1, 0), Pos(-1, 0), Pos(0, -1), Pos(0, 1), Pos(1, -1), Pos(-1, 1), Pos(1, 1), Pos(-1, -1)]
  const KingDirs: seq<Pos> := QueenDirs

  /** The directions a piece of variant v and colour c is constructed with. */
  function Directions(v: Variant, c: Color): (ds: seq<Pos>)
    ensures v != Knight ==> forall i :: 0 <= i < |ds| ==> Unit(ds[i])
    ensures v == Knight ==> forall i :: 0 <= i < |ds| ==> ds[i].x * ds[i].x + ds[i].y * ds[i].y == 5
  {
    match v
    case Pawn => [Pos(0, Forward(c)), Pos(-1, Forward(c)), Pos(1, Forward(c))]
    case Rook => RookDirs
    case Bishop => BishopDirs
    case Knight => KnightDirs
    case Queen => QueenDirs
    case King => KingDirs
  }

  /** The max step a piece is constructed with: 2 for the pawn, 1 for the
      knight and king, the board size for the sliders. */
  function MaxStep(v: Variant): (m: nat)
    ensures m == 1 <==> v == Knight || v == King
    ensures m == Size <==> v == Rook || v == Bishop || v == Queen
  {
    match v
    case Pawn => 2
    case Knight => 1
    case King => 1
    case _ => Size
  }

  // ---------------------------------------------------------------------
  // The ray walk (_precalculate_allowed_pos).

  /** One direction of the walk: up to `steps` steps from `from` along d,
      stopping before an off-board square and after the first occupied one. */
  function Ray(g: Grid, from: Pos, d: Pos, steps: nat): (r: set<Pos>)
    requires ValidGrid(g)
    ensures forall p :: p in r ==> InBounds(p)
    decreases steps
  {
    if steps == 0 then {}
    else
      var next := Pos(from.x + d.x, from.y + d.y);
      if !InBounds(next) then {}
      else if g[next.x][next.y].Occupied? then {next}
      else {next} + Ray(g, next, d, steps - 1)
  }

  /** The squares strictly between `from` and k steps along d are on the board and empty. */
  predicate ClearBefore(g: Grid, from: Pos, d: Pos, k: int)
    requires ValidGrid(g)
  {
    forall j :: 1 <= j < k ==> InBounds(Shift(from, d, j)) && !HasFigure(g, Shift(from, d, j))
  }

  /** A clear stretch after the next square, when that square is on the
      board and empty, is a clear stretch one longer from `from`. */
  lemma ClearExtend(g: Grid, from: Pos, d: Pos, k: nat)
    requires ValidGrid(g)
    requires InBounds(Pos(from.x + d.x, from.y + d.y)) && !HasFigure(g, Pos(from.x + d.x, from.y + d.y))
    requires ClearBefore(g, Pos(from.x + d.x, from.y + d.y), d, k)
    ensures ClearBefore(g, from, d, k + 1)
  {
    var next := Pos(from.x + d.x, from.y + d.y);
    forall j | 1 <= j < k + 1
      ensures InBounds(Shift(from, d, j)) && !HasFigure(g, Shift(from, d, j))
    {
      if j > 1 {
        ShiftNext(from, d, j - 1);
      }
    }
  }

  /** A clear stretch of k >= 2 squares from `from` leaves a clear stretch
      of k - 1 from the next square. */
  lemma ClearShrink(g: Grid, from: Pos, d: Pos, k: nat)
    requires ValidGrid(g) && k >= 2
    requires ClearBefore(g, from, d, k)
    ensures ClearBefore(g, Pos(from.x + d.x, from.y + d.y), d, k - 1)
  {
    var next := Pos(from.x + d.x, from.y + d.y);
    forall j | 1 <= j < k - 1
      ensures InBounds(Shift(next, d, j)) && !HasFigure(g, Shift(next, d, j))
    {
      ShiftNext(from, d, j);
    }
  }

  /** p is on the board k <= steps steps along d and every square before it is empty. */
  ghost predicate Reached(g: Grid, from: Pos, d: Pos, steps: nat, p: Pos)
    requires ValidGrid(g)
  {
    exists k :: 1 <= k <= steps && p == Shift(from, d, k) && InBounds(p) && ClearBefore(g, from, d, k)
  }

  /** The ray, described without recursion: p is reached iff it is on the
      board k <= steps steps along d and every square before it is empty. */
  lemma {:induction false} RayMembership(g: Grid, from: Pos, d: Pos, steps: nat, p: Pos)
    requires ValidGrid(g)
    ensures p in Ray(g, from, d, steps) <==>
      exists k :: 1 <= k <= steps && p == Shift(from, d, k) && InBounds(p) && ClearBefore(g, from, d, k)
    decreases steps, 1
  {
    if steps > 0 {
      var next := Pos(from.x + d.x, from.y + d.y);
      if !InBounds(next) || g[next.x][next.y].Occupied? {
        RayBlocked(g, from, d, steps, p);
      } else {
        RayOpen(g, from, d, steps, p);
      }
    }
  }

  /** A ray whose first square is off the board or occupied holds at most that square. */
  lemma RayBlocked(g: Grid, from: Pos, d: Pos, steps: nat, p: Pos)
    requires ValidGrid(g) && steps > 0
    requires var next := Pos(from.x + d.x, from.y + d.y);
      !InBounds(next) || g[next.x][next.y].Occupied?
    ensures p in Ray(g, from, d, steps) <==> Reached(g, from, d, steps, p)
  {
    var next := Pos(from.x + d.x, from.y + d.y);
    assert Shift(from, d, 1) == next;
    if Reached(g, from, d, steps, p) {
      var k :| 1 <= k <= steps && p == Shift(from, d, k) && InBounds(p) && ClearBefore(g, from, d, k);
      assert k > 1 ==> InBounds(Shift(from, d, 1)) && !HasFigure(g, Shift(from, d, 1));
    }
    if p in Ray(g, from, d, steps) {
      assert ClearBefore(g, from, d, 1);
    }
  }

  /** A ray whose first square is on the board and empty: that square, then
      the ray from it. */
  lemma {:induction false} RayOpen(g: Grid, from: Pos, d: Pos, steps: nat, p: Pos)
    requires ValidGrid(g) && steps > 0
    requires var next := Pos(from.x + d.x, from.y + d.y);
      InBounds(next) && !g[next.x][next.y].Occupied?
    ensures p in Ray(g, from, d, steps) <==> Reached(g, from, d, steps, p)
    decreases steps, 0
  {
    var next := Pos(from.x + d.x, from.y + d.y);
    assert Shift(from, d, 1) == next;
    assert Ray(g, from, d, steps) == {next} + Ray(g, next, d, steps - 1);
    RayMembership(g, next, d, steps - 1, p);
    if p in Ray(g, next, d, steps - 1) {
      var k :| 1 <= k <= steps - 1 && p == Shift(next, d, k) && InBounds(p) && ClearBefore(g, next, d, k);
      ShiftNext(from, d, k);
      ClearExtend(g, from, d, k);
    } else if p != next {
      if Reached(g, from, d, steps, p) {
        var k :| 1 <= k <= steps && p == Shift(from, d, k) && InBounds(p) && ClearBefore(g, from, d, k);
        assert k != 1;
        ShiftNext(from, d, k - 1);
        ClearShrink(g, from, d, k);
        assert false;
      }
    } else {
      assert ClearBefore(g, from, d, 1);
    }
  }

  /** _precalculate_allowed_pos as a value: the union of the rays along every direction. */
  function RayWalk(g: Grid, from: Pos, dirs: seq<Pos>, steps: nat): (r: set<Pos>)
    requires ValidGrid(g)
    ensures forall p :: p in r ==> InBounds(p)
    decreases |dirs|
  {
    if dirs == [] then {}
    else RayWalk(g, from, dirs[..|dirs| - 1], steps) + Ray(g, from, dirs[|dirs| - 1], steps)
  }

  /** A square is reached by the walk iff it is reached along one of the directions. */
  lemma {:induction false} RayWalkMembership(g: Grid, from: Pos, dirs: seq<Pos>, steps: nat, p: Pos)
    requires ValidGrid(g)
    ensures p in RayWalk(g, from, dirs, steps) <==>
      exists i :: 0 <= i < |dirs| && p in Ray(g, from, dirs[i], steps)
    decreases |dirs|
  {
    if dirs != [] {
      var n := |dirs| - 1;
      RayWalkMembership(g, from, dirs[..n], steps, p);
      if exists i :: 0 <= i < |dirs| && p in Ray(g, from, dirs[i], steps) {
        var i :| 0 <= i < |dirs| && p in Ray(g, from, dirs[i], steps);
        if i < n {
          assert dirs[..n][i] == dirs[i];
        }
      }
      if exists i :: 0 <= i < n && p in Ray(g, from, dirs[..n][i], steps) {
        var i :| 0 <= i < n && p in Ray(g, from, dirs[..n][i], steps);
        assert dirs[..n][i] == dirs[i];
      }
    }
  }

  // ---------------------------------------------------------------------
  // The tables checked against the pieces' geometry: on a board where
  // nothing but the piece stands, the walk reaches exactly the squares the
  // rules of chess give each piece.

  function Abs(x: int): nat
  {
    if x < 0 then -x else x
  }

  /** k steps along a direction with components in {-1, 0, 1}, per coordinate. */
  function Scale(k: int, c: int): int
  {
    if c > 0 then k else if c < 0 then -k else 0
  }

  lemma {:induction false} ShiftScale(p: Pos, d: Pos, k: nat)
    requires -1 <= d.x <= 1 && -1 <= d.y <= 1
    ensures Shift(p, d, k) == Pos(p.x + Scale(k, d.x), p.y + Scale(k, d.y))
    decreases k
  {
    if k > 0 {
      ShiftScale(Pos(p.x + d.x, p.y + d.y), d, k - 1);
    }
  }

  /** No piece stands on the board except (perhaps) at p. */
  ghost predicate Alone(g: Grid, p: Pos)
    requires ValidGrid(g)
  {
    forall q :: InBounds(q) && q != p ==> !HasFigure(g, q)
  }

  /** The squares a piece of variant v on p may reach on an otherwise empty
      board: the rook along its file and rank, the bishop along its
      diagonals, the queen along both, the knight by an L-jump, the king to
      a neighbouring square. */
  predicate InRange(v: Variant, p: Pos, t: Pos)
  {
    var dx, dy := Abs(t.x - p.x), Abs(t.y - p.y);
    var straight := (dx == 0) != (dy == 0);
    var diagonal := dx == dy && dx != 0;
    match v
    case Pawn => false
    case Rook => straight
    case Bishop => diagonal
    case Queen => straight || diagonal
    case Knight => (dx == 1 && dy == 2) || (dx == 2 && dy == 1)
    case King => dx <= 1 && dy <= 1 && dx + dy != 0
  }

  /** Whatever a ray reaches lies k >= 1 steps along its direction. */
  lemma RayShape(g: Grid, p: Pos, d: Pos, steps: nat, t: Pos)
    requires ValidGrid(g) && -1 <= d.x <= 1 && -1 <= d.y <= 1
    requires t in Ray(g, p, d, steps)
    ensures exists k :: 1 <= k <= steps && t == Pos(p.x + Scale(k, d.x), p.y + Scale(k, d.y))
  {
    RayMembership(g, p, d, steps, t);
    var k :| 1 <= k <= steps && t == Shift(p, d, k) && InBounds(t) && ClearBefore(g, p, d, k);
    ShiftScale(p, d, k);
  }

  /** On an otherwise empty board, the ray from p toward any square on one
      of p's files, ranks or diagonals reaches it. */
  lemma SliderReach(g: Grid, p: Pos, t: Pos, steps: nat)
    requires ValidGrid(g) && InBounds(p) && InBounds(t) && Alone(g, p) && steps >= Size
    requires InRange(Queen, p, t)
    ensures t in Ray(g, p, Direction(t, p), steps)
  {
    var d := Direction(t, p);
    var k := if Abs(t.x - p.x) >= Abs(t.y - p.y) then Abs(t.x - p.x) else Abs(t.y - p.y);
    ShiftScale(p, d, k);
    assert t == Shift(p, d, k);
    forall j | 1 <= j < k
      ensures InBounds(Shift(p, d, j)) && !HasFigure(g, Shift(p, d, j))
    {
      ShiftScale(p, d, j);
    }
    assert ClearBefore(g, p, d, k);
    RayMembership(g, p, d, steps, t);
  }

  /** Whatever a rook, bishop or queen walk reaches lies on its lines. */
  lemma SliderSound(g: Grid, p: Pos, v: Variant, c: Color, t: Pos)
    requires ValidGrid(g)
    requires v == Rook || v == Bishop || v == Queen
    requires t in RayWalk(g, p, Directions(v, c), MaxStep(v))
    ensures InBounds(t) && InRange(v, p, t)
  {
    var dirs := Directions(v, c);
    RayWalkMembership(g, p, dirs, Size, t);
    var i :| 0 <= i < |dirs| && t in Ray(g, p, dirs[i], Size);
    RayShape(g, p, dirs[i], Size, t);
  }

  /** On an otherwise empty board, a rook, bishop or queen walk reaches
      every square on its lines. */
  lemma SliderComplete(g: Grid, p: Pos, v: Variant, c: Color, t: Pos)
    requires ValidGrid(g) && InBounds(p) && Alone(g, p)
    requires v == Rook || v == Bishop || v == Queen
    requires InBounds(t) && InRange(v, p, t)
    ensures t in RayWalk(g, p, Directions(v, c), MaxStep(v))
  {
    var dirs := Directions(v, c);
    SliderReach(g, p, t, Size);
    var d := Direction(t, p);
    assert d in dirs;
    var i :| 0 <= i < |dirs| && dirs[i] == d;
    RayWalkMembership(g, p, dirs, Size, t);
  }

  /** A one-step ray holds exactly its first square, when that is on the board. */
  lemma OneStep(g: Grid, p: Pos, d: Pos, t: Pos)
    requires ValidGrid(g)
    ensures t in Ray(g, p, d, 1) <==> InBounds(t) && t == Pos(p.x + d.x, p.y + d.y)
  {
    assert Ray(g, Pos(p.x + d.x, p.y + d.y), d, 0) == {};
  }

  /** A one-step walk along a table of jumps reaches exactly the jumps that
      land on the board. */
  lemma JumpWalk(g: Grid, p: Pos, dirs: seq<Pos>, t: Pos)
    requires ValidGrid(g)
    ensures t in RayWalk(g, p, dirs, 1) <==> InBounds(t) && Pos(t.x - p.x, t.y - p.y) in dirs
  {
    RayWalkMembership(g, p, dirs, 1, t);
    forall i | 0 <= i < |dirs|
      ensures t in Ray(g, p, dirs[i], 1) <==> InBounds(t) && dirs[i] == Pos(t.x - p.x, t.y - p.y)
    {
      OneStep(g, p, dirs[i], t);
    }
  }

  /** A knight, on any board, reaches exactly its L-jumps on the board. */
  lemma KnightRange(g: Grid, p: Pos, t: Pos)
    requires ValidGrid(g)
    ensures t in RayWalk(g, p, KnightDirs, 1) <==> InBounds(t) && InRange(Knight, p, t)
  {
    JumpWalk(g, p, KnightDirs, t);
  }

  /** A king, on any board, reaches exactly its neighbouring squares on the board. */
  lemma KingRange(g: Grid, p: Pos, t: Pos)
    requires ValidGrid(g)
    ensures t in RayWalk(g, p, KingDirs, 1) <==> InBounds(t) && InRange(King, p, t)
  {
    JumpWalk(g, p, KingDirs, t);
  }

  /** The direction and max-step tables give every piece but the pawn its
      geometric range on an otherwise empty board. */
  lemma EmptyBoardRange(g: Grid, p: Pos, v: Variant, c: Color, t: Pos)
    requires ValidGrid(g) && InBounds(p) && Alone(g, p) && v != Pawn
    ensures t in RayWalk(g, p, Directions(v, c), MaxStep(v)) <==> InBounds(t) && InRange(v, p, t)
  {
    if v == Knight {
      KnightRange(g, p, t);
    } else if v == King {
      KingRange(g, p, t);
    } else if t in RayWalk(g, p, Directions(v, c), MaxStep(v)) {
      SliderSound(g, p, v, c, t);
    } else if InBounds(t) && InRange(v, p, t) {
      SliderComplete(g, p, v, c, t);
    }
  }

  /** The nested direction / step loops of _precalculate_allowed_pos. */
  method PrecalculateAllowedPos(g: Grid, from: Pos, dirs: seq<Pos>, maxStep: nat)
    returns (positions: set<Pos>)
    requires ValidGrid(g)
    ensures positions == RayWalk(g, from, dirs, maxStep)
  {
    positions := {};
    for i := 0 to |dirs|
      invariant positions == RayWalk(g, from, dirs[..i], maxStep)
    {
      var d := dirs[i];
      var x, y := from.x, from.y;
      var s := 0;
      while s < maxStep
        invariant 0 <= s <= maxStep
        invariant positions + Ray(g, Pos(x, y), d, maxStep - s)
          == RayWalk(g, from, dirs[..i], maxStep) + Ray(g, from, d, maxStep)
      {
        x, y := x + d.x, y + d.y;
        var cell := Get(g, Pos(x, y));
        if cell.None? {
          break;
        }
        positions := positions + {Pos(x, y)};
        if cell.value.Occupied? {
          break;
        }
        s := s + 1;
      }
      assert dirs[..i + 1][..i] == dirs[..i];
    }
    assert dirs[..|dirs|] == dirs;
  }
}
