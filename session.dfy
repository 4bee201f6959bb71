/** The game session (game.py): the move counter that decides whose turn
    it is, the two players, and each player's tally of captured pieces. */
module Session {
  import opened Chess

  /** The names a capture may be recorded under: the class names of the six
      piece kinds. */
  const FigureNames: set<string> := {"Pawn", "Bishop", "Knight", "Rook", "Queen", "King"}

  lemma VariantNamesAllowed(v: Variant)
    ensures VariantName(v) in FigureNames
  {
  }

  /** The validation in Player.__init__: only "white" and "black" name a player. */
  function PlayerType(s: string): (r: Result<Color>)
    ensures r.Ok? <==> s == "white" || s == "black"
    ensures r == Ok(White) <==> s == "white"
    ensures r.Err? ==> r.error == BadName
  {
    if s == "white" then Ok(White)
    else if s == "black" then Ok(Black)
    else Err(BadName)
  }

  /** get_defeated on a tally: the stored count, 0 for a name never recorded. */
  function Count(tally: map<string, nat>, name: string): (n: nat)
    ensures name !in tally ==> n == 0
    ensures name in tally ==> n == tally[name]
  {
    if name in tally then tally[name] else 0
  }

  /** add_defeated on a tally, for an allowed name: one more under that name. */
  function Record(tally: map<string, nat>, name: string): (r: map<string, nat>)
    ensures r.Keys == tally.Keys + {name}
  {
    if name !in tally then tally[name := 1] else tally[name := tally[name] + 1]
  }

  /** Recording a name raises its count by exactly one and leaves every
      other count as it was. */
  lemma RecordCounts(tally: map<string, nat>, name: string, other: string)
    ensures Count(Record(tally, name), name) == Count(tally, name) + 1
    ensures other != name ==> Count(Record(tally, name), other) == Count(tally, other)
  {
  }

  /** What add_defeated keeps true of a tally: only allowed names, and every
      stored count at least one. */
  ghost predicate GoodTally(tally: map<string, nat>)
  {
    forall name :: name in tally ==> name in FigureNames && tally[name] >= 1
  }

  lemma RecordKeepsGoodTally(tally: map<string, nat>, name: string)
    requires GoodTally(tally) && name in FigureNames
    ensures GoodTally(Record(tally, name))
  {
  }

  class Player {
    const kind: Color
    var defeated: map<string, nat>

    ghost predicate Valid()
      reads this
    {
      GoodTally(defeated)
    }

    /** A player of the given colour with an empty tally. */
    constructor(kind: Color)
      ensures this.kind == kind && defeated == map[]
      ensures Valid()
    {
      this.kind := kind;
      defeated := map[];
    }

    /** Player.add_defeated: a name outside the six piece names fails and
        leaves the tally alone; any other is recorded. */
    method AddDefeated(figure: string) returns (r: Result<()>)
      requires Valid()
      modifies this
      ensures Valid()
      ensures figure !in FigureNames ==> r == Err(BadName) && defeated == old(defeated)
      ensures figure in FigureNames ==> r == Ok(()) && defeated == Record(old(defeated), figure)
    {
      if figure !in FigureNames {
        return Err(BadName);
      }
      if figure !in defeated {
        defeated := defeated[figure := 1];
      } else {
        defeated := defeated[figure := defeated[figure] + 1];
      }
      RecordKeepsGoodTally(old(defeated), figure);
      return Ok(());
    }

    /** Player.get_defeated. */
    function GetDefeated(figure: string): (n: nat)
      reads this
      ensures figure !in defeated ==> n == 0
      ensures figure in defeated ==> n == defeated[figure]
      ensures figure in defeated && Valid() ==> n >= 1
    {
      Count(defeated, figure)
    }
  }

  /** next_player as a colour: white on an even move count, black on an odd one. */
  function NextColor(movesCount: nat): (c: Color)
    ensures c == White <==> movesCount % 2 == 0
  {
    if movesCount % 2 == 0 then White else Black
  }

  /** The turn passes to the other side with every move. */
  lemma {:induction false} TurnsAlternate(movesCount: nat)
    ensures NextColor(movesCount + 1) == Opponent(NextColor(movesCount))
    ensures NextColor(movesCount + 2) == NextColor(movesCount)
  {
  }

  class GameSession {
    var movesCount: nat
    const white: Player
    const black: Player

    ghost predicate Valid()
      reads this, white, black
    {
      white.kind == White && black.kind == Black && white != black
      && white.Valid() && black.Valid()
    }

    /** A session before the first move, with two fresh players. */
    constructor()
      ensures movesCount == 0 && fresh(white) && fresh(black)
      ensures white.defeated == map[] && black.defeated == map[]
      ensures Valid()
    {
      movesCount := 0;
      black := new Player(Black);
      white := new Player(White);
    }

    /** GameSession.next_player. */
    function NextPlayer(): (p: Player)
      reads this
      ensures p == white || p == black
      ensures movesCount % 2 == 0 ==> p == white
      ensures movesCount % 2 == 1 ==> p == black
    {
      if movesCount % 2 == 0 then white else black
    }

    /** The player to move is the one of colour NextColor. */
    lemma NextPlayerColor()
      requires Valid()
      ensures NextPlayer().kind == NextColor(movesCount)
    {
    }
  }
}
