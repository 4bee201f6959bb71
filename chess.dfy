/** Pieces, squares, the board grid, the start layout and the failures the
    engine can raise. The grid is indexed [file][rank], so the square at
    Pos(x, y) is g[x][y]. */
module Chess {

  datatype Option<+T> = None | Some(value: T)

  /** The exceptions the engine can raise, each named after its cause. */
  datatype Error =
    | NoKing          // get_king found no king of the player
    | NoAttacker      // in check, but no checking piece was recorded
    | OffBoardLookup  // a cell looked up off the board was dereferenced
    | OutOfFuel       // the king castling / attack-detection recursion did not bottom out
    | BadName         // a name outside the allowed list

  datatype Result<+T> = Ok(value: T) | Err(error: Error) {
    predicate IsFailure() { Err? }

    function PropagateFailure<U>(): Result<U>
      requires Err?
    {
      Err(error)
    }

    function Extract(): T
      requires Ok?
    {
      value
    }
  }

  datatype Color = White | Black

  function Opponent(c: Color): (o: Color)
    ensures o != c
  {
    if c == White then Black else White
  }

  datatype Variant = Pawn | Rook | Knight | Bishop | Queen | King

  /** The class name of a piece, which is what a capture is recorded under. */
  function VariantName(v: Variant): string
  {
    match v
    case Pawn => "Pawn"
    case Rook => "Rook"
    case Knight => "Knight"
    case Bishop => "Bishop"
    case Queen => "Queen"
    case King => "King"
  }

  datatype Piece = Piece(variant: Variant, player: Color, moves: nat)

  datatype Square = Empty | Occupied(piece: Piece)

  datatype Pos = Pos(x: int, y: int)

  /** The number of files and ranks: the length of the start layout. */
  const Size: nat := 8

  type Grid = seq<seq<Square>>

  predicate ValidGrid(g: Grid)
  {
    |g| == Size && forall i :: 0 <= i < Size ==> |g[i]| == Size
  }

  predicate InBounds(p: Pos)
  {
    0 <= p.x < Size && 0 <= p.y < Size
  }

  /** Bounds-checked lookup: a square for an on-board coordinate, None otherwise. */
  function Get(g: Grid, p: Pos): (r: Option<Square>)
    requires ValidGrid(g)
    ensures r.Some? <==> InBounds(p)
  {
    if InBounds(p) then Some(g[p.x][p.y]) else None
  }

  /** `cell and cell.figure`: an on-board square that holds a piece. */
  predicate HasFigure(g: Grid, p: Pos)
    requires ValidGrid(g)
  {
    InBounds(p) && g[p.x][p.y].Occupied?
  }

  function At(g: Grid, p: Pos): Piece
    requires ValidGrid(g) && HasFigure(g, p)
  {
    g[p.x][p.y].piece
  }

  predicate IsEnemy(g: Grid, p: Pos, c: Color)
    requires ValidGrid(g)
  {
    HasFigure(g, p) && At(g, p).player != c
  }

  predicate IsFriend(g: Grid, p: Pos, c: Color)
    requires ValidGrid(g)
  {
    HasFigure(g, p) && At(g, p).player == c
  }

  /** The grid with the square at p replaced by s. */
  function Put(g: Grid, p: Pos, s: Square): (r: Grid)
    requires ValidGrid(g) && InBounds(p)
    ensures ValidGrid(r)
    ensures r[p.x][p.y] == s
    ensures forall q :: InBounds(q) && q != p ==> r[q.x][q.y] == g[q.x][q.y]
  {
    g[p.x := g[p.x][p.y := s]]
  }

  /** Board-scan order: files outer, ranks inner. */
  predicate Before(a: Pos, b: Pos)
  {
    a.x < b.x || (a.x == b.x && a.y < b.y)
  }

  /** q has been visited by a scan that is about to look at (i, j). */
  predicate Scanned(q: Pos, i: int, j: int)
  {
    Before(q, Pos(i, j))
  }

  // ---------------------------------------------------------------------
  // The start layout (game_objects.py Board.__start_set), listed file by file.

  const Layout: seq<seq<Option<Variant>>> := [
    [Some(Rook),   Some(Pawn), None, None, None, None, Some(Pawn), Some(Rook)],
    [Some(Knight), Some(Pawn), None, None, None, None, Some(Pawn), Some(Knight)],
    [Some(Bishop), Some(Pawn), None, None, None, None, Some(Pawn), Some(Bishop)],
    [Some(Queen),  Some(Pawn), None, None, None, None, Some(Pawn), Some(Queen)],
    [Some(King),   Some(Pawn), None, None, None, None, Some(Pawn), Some(King)],
    [Some(Bishop), Some(Pawn), None, None, None, None, Some(Pawn), Some(Bishop)],
    [Some(Knight), Some(Pawn), None, None, None, None, Some(Pawn), Some(Knight)],
    [Some(Rook),   Some(Pawn), None, None, None, None, Some(Pawn), Some(Rook)]
  ]

  /** get_from_start_set: the start-layout tag of an on-board square, None off the board. */
  function StartTag(p: Pos): (r: Option<Variant>)
    ensures !InBounds(p) ==> r.None?
    ensures InBounds(p) && (p.y == 1 || p.y == 6) ==> r == Some(Pawn)
    ensures InBounds(p) && 2 <= p.y <= 5 ==> r.None?
    ensures r == Some(King) <==> p == Pos(4, 0) || p == Pos(4, 7)
  {
    if InBounds(p) then Layout[p.x][p.y] else None
  }

  /** Cell.__init__: a start piece on a rank in the lower half of the board
      (rank >= size / 2, a float division) belongs to white, else to black. */
  function InitialOwner(y: int): (c: Color)
    ensures c == White <==> 2 * y >= Size
  {
    if 2 * y >= Size then White else Black
  }

  /** The board as set up by Board.__init__: every start tag becomes an unmoved
      piece of its initial owner. */
  function InitialGrid(): (g: Grid)
    ensures ValidGrid(g)
    ensures forall p :: InBounds(p) ==>
      (g[p.x][p.y].Occupied? <==> StartTag(p).Some?)
    ensures forall p :: InBounds(p) && g[p.x][p.y].Occupied? ==>
      g[p.x][p.y].piece == Piece(StartTag(p).value, InitialOwner(p.y), 0)
  {
    seq(Size, i requires 0 <= i < Size =>
      seq(Size, j requires 0 <= j < Size =>
        match Layout[i][j]
        case None => Empty
        case Some(v) => Occupied(Piece(v, InitialOwner(j), 0))))
  }
}
