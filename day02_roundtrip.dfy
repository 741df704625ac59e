/** The grammar of day02/src/main.rs reads the text of a game, as the
    puzzle input writes it, back as that game. Each step is a small lemma
    about the parser it names, so that no proof has to look through more
    than one combinator at a time. */
module Day02RoundTrip {

  import opened Parsing
  import opened Day02

  // ---------------------------------------------------------------------
  // A cube.

  /** The count of a written cube is read first. */
  lemma CountOfCube(c: Cube, rest: string)
    ensures Unsigned(CubeText(c) + rest) == Success(c.count, " " + (ColourName(c.colour) + rest))
  {
    var tail := " " + (ColourName(c.colour) + rest);
    AppendAssoc(Decimal(c.count), " " + ColourName(c.colour), rest);
    AppendAssoc(" ", ColourName(c.colour), rest);
    UnsignedRoundTrip(c.count, tail);
  }

  /** The colour after the count's space is read next. */
  lemma ColourOfCube(c: Colour, rest: string)
    ensures ColourParser(Space0(" " + (ColourName(c) + rest))) == Success(c, rest)
  {
    FirstOf(ColourName(c), rest);
    SpacesThen(" ", ColourName(c) + rest);
    ColourRoundTrip(c, rest);
  }

  /** A cube's text is read back as that cube, followed by what follows it. */
  lemma CubeRoundTrip(c: Cube, rest: string)
    ensures CubeParser(CubeText(c) + rest) == Success(c, rest)
  {
    CountOfCube(c, rest);
    ColourOfCube(c.colour, rest);
    CubeParserOn(CubeText(c) + rest, c.count, " " + (ColourName(c.colour) + rest), c.colour, rest);
  }

  /** `separator` drops a comma and the spaces after it. */
  lemma SeparatorDrops(before: string, after: string, rest: string)
    requires forall i :: 0 <= i < |before| ==> before[i] == ' '
    requires forall i :: 0 <= i < |after| ==> after[i] == ' '
    requires rest == [] || !IsSpace(rest[0])
    ensures Separator(Space0(before + ("," + (after + rest)))) == rest
  {
    SpacesThen(before, "," + (after + rest));
    StartsWithAppend(",", after + rest);
    SpacesThen(after, rest);
  }

  /** `cube_separator` takes a cube, the spaces after it, and a comma with
      the spaces after that: "9 green          ,   " is read whole. */
  lemma CubeSeparatorRoundTrip(c: Cube, before: string, after: string, rest: string)
    requires forall i :: 0 <= i < |before| ==> before[i] == ' '
    requires forall i :: 0 <= i < |after| ==> after[i] == ' '
    requires rest == [] || !IsSpace(rest[0])
    ensures CubeSeparator(CubeText(c) + (before + ("," + (after + rest)))) == Success(c, rest)
  {
    var s := CubeText(c) + (before + ("," + (after + rest)));
    CubeRoundTrip(c, before + ("," + (after + rest)));
    CubeSeparatorOn(s, c, before + ("," + (after + rest)));
    SeparatorDrops(before, after, rest);
  }

  /** The ", " between two cubes of a set. */
  lemma CubeThenComma(c: Cube, rest: string)
    requires rest == [] || !IsSpace(rest[0])
    ensures CubeSeparator(CubeText(c) + (", " + rest)) == Success(c, rest)
  {
    CommaSpace(rest);
    CubeSeparatorRoundTrip(c, "", " ", rest);
  }

  lemma CommaSpace(rest: string)
    ensures ", " + rest == "" + ("," + (" " + rest))
  {
  }

  // ---------------------------------------------------------------------
  // A set.

  /** A cube followed by something other than a comma, a space or a digit
      ends its set. */
  lemma LastCube(c: Cube, rest: string)
    requires rest == [] || (!IsSpace(rest[0]) && rest[0] != ',' && !IsDigit(rest[0]))
    ensures CubeSet(CubeText(c) + rest) == ([c], rest)
  {
    CubeRoundTrip(c, rest);
    CubeSeparatorOn(CubeText(c) + rest, c, rest);
    NoSeparator(rest);
    CubeSetStops(rest);
    SetOfMore(CubeText(c) + rest, c, rest, [], rest);
    AppendNothing([c]);
  }

  lemma SetOfMore(s: string, c: Cube, afterCube: string, cubes: seq<Cube>, rest: string)
    requires CubeSeparator(s) == Success(c, afterCube) && CubeSet(afterCube) == (cubes, rest)
    ensures CubeSet(s) == ([c] + cubes, rest)
  {
    CubeSetGoesOn(s, c, afterCube);
  }

  /** A set's text is read back as that set. */
  lemma {:induction false} SetRoundTrip(cubes: seq<Cube>, rest: string)
    requires cubes != []
    requires rest == [] || (!IsSpace(rest[0]) && rest[0] != ',' && !IsDigit(rest[0]))
    ensures CubeSet(SetText(cubes) + rest) == (cubes, rest)
    decreases |cubes|
  {
    if |cubes| == 1 {
      SetTextOne(cubes);
      LastCube(cubes[0], rest);
      HeadTail(cubes);
      AppendNothing([cubes[0]]);
    } else {
      var first, later := CubeText(cubes[0]), SetText(cubes[1..]);
      SetTextMore(cubes);
      AppendAssoc(first, ", " + later, rest);
      AppendAssoc(", ", later, rest);
      SetTextStarts(cubes[1..]);
      FirstOf(later, rest);
      CubeThenComma(cubes[0], later + rest);
      SetRoundTrip(cubes[1..], rest);
      SetOfMore(SetText(cubes) + rest, cubes[0], later + rest, cubes[1..], rest);
      HeadTail(cubes);
    }
  }

  /** `cube_set_terminator` stops after the `;` and its spaces, leaving the
      next set: "1 blue, 2 red;     3 green" leaves "3 green". */
  lemma TerminatorLeavesNextSet(cubes: seq<Cube>, spaces: string, next: string)
    requires cubes != [] && forall i :: 0 <= i < |spaces| ==> spaces[i] == ' '
    requires next == [] || !IsSpace(next[0])
    ensures CubeSetTerminator(SetText(cubes) + (";" + (spaces + next))) == (cubes, next)
  {
    SetRoundTrip(cubes, ";" + (spaces + next));
    StartsWithAppend(";", spaces + next);
    SpacesThen(spaces, next);
  }

  // ---------------------------------------------------------------------
  // The sets and the game.

  /** The last set is read up to the end of input. */
  lemma TerminatorAtEnd(cubes: seq<Cube>)
    requires cubes != []
    ensures CubeSetTerminator(SetText(cubes)) == (cubes, "")
  {
    SetRoundTrip(cubes, "");
    AppendNothing(SetText(cubes));
  }

  /** `many_till` ends on the sets read so far and the rest of them. */
  lemma TerminatorsThen(s: string, cubes: seq<Cube>, rest: string, sets: seq<seq<Cube>>)
    requires s != [] && s[0] != '\n'
    requires CubeSetTerminator(s) == (cubes, rest) && |rest| < |s|
    requires CubeSetTerminators(rest) == Success(sets, "")
    ensures CubeSetTerminators(s) == Success([cubes] + sets, "")
  {
    TerminatorsGoOn(s, cubes, rest);
  }

  lemma SemicolonSpace(rest: string)
    ensures "; " + rest == ";" + (" " + rest)
  {
  }

  /** The sets' text is read back as those sets, up to the end of input. */
  lemma {:induction false} SetsRoundTrip(sets: seq<seq<Cube>>)
    requires forall i :: 0 <= i < |sets| ==> sets[i] != []
    ensures CubeSetTerminators(SetsText(sets)) == Success(sets, "")
    decreases |sets|
  {
    if sets != [] {
      var text := SetsText(sets);
      SetTextStarts(sets[0]);
      if |sets| == 1 {
        TerminatorAtEnd(sets[0]);
        TerminatorsThen(text, sets[0], "", []);
        AppendNothing([sets[0]]);
        HeadTail(sets);
      } else {
        var later := SetsText(sets[1..]);
        SetsTextMore(sets);
        FirstOf(SetText(sets[0]), "; " + later);
        SetTextStarts(sets[1]);
        SetsStartWithDigit(sets[1..]);
        SemicolonSpace(later);
        TerminatorLeavesNextSet(sets[0], " ", later);
        SetsRoundTrip(sets[1..]);
        TerminatorsThen(text, sets[0], later, sets[1..]);
        HeadTail(sets);
      }
    }
  }

  lemma SetsStartWithDigit(sets: seq<seq<Cube>>)
    requires forall i :: 0 <= i < |sets| ==> sets[i] != []
    ensures SetsText(sets) == [] || IsDigit(SetsText(sets)[0])
  {
    if |sets| == 1 {
      SetTextStarts(sets[0]);
    } else if |sets| > 1 {
      SetsTextMore(sets);
      SetTextStarts(sets[0]);
      FirstOf(SetText(sets[0]), "; " + SetsText(sets[1..]));
    }
  }

  /** The id is read between "Game" and the colon. */
  lemma IdOfGame(id: nat, afterId: string)
    requires afterId != [] && afterId[0] == ':'
    ensures Unsigned(Space0(" " + (Decimal(id) + afterId))) == Success(id, afterId)
  {
    FirstOf(Decimal(id), afterId);
    SpacesThen(" ", Decimal(id) + afterId);
    UnsignedRoundTrip(id, afterId);
  }

  /** The colon and its space leave the sets. */
  lemma ColonOfGame(sets: string)
    requires sets == [] || IsDigit(sets[0])
    ensures Char(':', ": " + sets) == Success(':', " " + sets)
    ensures Space0(" " + sets) == sets
  {
    AppendAssoc(":", " ", sets);
    StartsWithAppend(":", " " + sets);
    SpacesThen(" ", sets);
  }

  /** "Game" opens the record. */
  lemma GameTag(afterTag: string)
    ensures Tag("Game", Multispace0("Game" + afterTag)) == Some(afterTag)
  {
    FirstOf("Game", afterTag);
    MultispaceNone("Game" + afterTag);
    StartsWithAppend("Game", afterTag);
  }

  /** `record_start` reads the id of a written game and leaves its sets. */
  lemma RecordStartRoundTrip(id: nat, sets: string)
    requires sets == [] || IsDigit(sets[0])
    ensures RecordStart("Game" + (" " + (Decimal(id) + (": " + sets)))) == Success(id, sets)
  {
    var afterId := ": " + sets;
    var afterTag := " " + (Decimal(id) + afterId);
    GameTag(afterTag);
    FirstOf(":", " " + sets);
    AppendAssoc(":", " ", sets);
    IdOfGame(id, afterId);
    ColonOfGame(sets);
    RecordStartOn("Game" + afterTag, afterTag, id, afterId, " " + sets);
  }

  /** A game's text is read back as that game. */
  lemma GameRoundTrip(g: Game)
    requires forall i :: 0 <= i < |g.sets| ==> g.sets[i] != []
    ensures Parser(GameText(g)) == Some(g)
  {
    SetsStartWithDigit(g.sets);
    RecordStartRoundTrip(g.id, SetsText(g.sets));
    SetsRoundTrip(g.sets);
    GameRecordOn(GameText(g), g.id, SetsText(g.sets), g.sets);
  }
}
