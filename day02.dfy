/** The cube game of day02/src/main.rs: a line such as
    "Game 1: 3 blue, 4 red; 1 red, 2 green" records a game as a list of
    sets of cubes. `max_cubes` gives the largest count seen of each colour;
    part 1 sums the ids of the games possible with 12 red, 13 green and 14
    blue cubes, part 2 sums the products of the three maxima. */
module Day02 {

  import opened Parsing

  datatype Colour = Red | Green | Blue

  datatype Cube = Cube(count: nat, colour: Colour)

  datatype Game = Game(id: nat, sets: seq<seq<Cube>>)

  function ColourName(c: Colour): string
  {
    match c
    case Red => "red"
    case Green => "green"
    case Blue => "blue"
  }

  // ---------------------------------------------------------------------
  // The grammar.

  /** `colour`: `alt((red, green, blue))`. */
  function ColourParser(s: string): (r: Parsed<Colour>)
    ensures r.Success? <==> StartsWith(s, "red") || StartsWith(s, "green") || StartsWith(s, "blue")
    ensures r.Success? ==> StartsWith(s, ColourName(r.value)) && r.rest == s[|ColourName(r.value)|..]
  {
    if StartsWith(s, "red") then Success(Red, s[3..])
    else if StartsWith(s, "green") then Success(Green, s[5..])
    else if StartsWith(s, "blue") then Success(Blue, s[4..])
    else Failure
  }

  /** A colour's name is read back as that colour. */
  lemma ColourRoundTrip(c: Colour, rest: string)
    ensures ColourParser(ColourName(c) + rest) == Success(c, rest)
  {
    var s := ColourName(c) + rest;
    StartsWithAppend(ColourName(c), rest);
    if c != Red {
      DiffersAt(s, "red", 0);
    }
    if c == Blue {
      DiffersAt(s, "green", 0);
    }
  }

  /** `cube`: a count, optional spaces, a colour. */
  function CubeParser(s: string): (r: Parsed<Cube>)
    ensures Progresses(r, s)
    ensures r.Success? ==> s != [] && IsDigit(s[0])
  {
    var n := Unsigned(s);
    if n.Failure? then Failure
    else
      var c := ColourParser(Space0(n.rest));
      if c.Failure? then Failure
      else
        SuffixTransitive(Space0(n.rest), n.rest, s);
        SuffixTransitive(c.rest, Space0(n.rest), s);
        Success(Cube(n.value, c.value), c.rest)
  }

  /** `separator`: an optional comma and the spaces after it. */
  function Separator(s: string): (r: string)
    ensures IsSuffix(r, s)
  {
    if s != [] && s[0] == ',' then Space0(s[1..]) else s
  }

  /** `cube_separator`: a cube, spaces, and an optional separator. */
  function CubeSeparator(s: string): (r: Parsed<Cube>)
    ensures Progresses(r, s)
    ensures r.Success? ==> s != [] && IsDigit(s[0])
  {
    var c := CubeParser(s);
    if c.Failure? then Failure
    else
      var sp := Space0(c.rest);
      SuffixTransitive(sp, c.rest, s);
      SuffixTransitive(Separator(sp), sp, s);
      Success(c.value, Separator(sp))
  }

  /** `cube_set`: `many0(cube_separator)`, never failing. */
  function CubeSet(s: string): (r: (seq<Cube>, string))
    ensures IsSuffix(r.1, s)
    decreases |s|
  {
    var c := CubeSeparator(s);
    if c.Failure? then ([], s)
    else
      var more := CubeSet(c.rest);
      SuffixTransitive(more.1, c.rest, s);
      ([c.value] + more.0, more.1)
  }

  /** `terminator`: an optional `;` and the spaces after it. */
  function Terminator(s: string): (r: string)
    ensures IsSuffix(r, s)
  {
    if s != [] && s[0] == ';' then Space0(s[1..]) else s
  }

  /** `cube_set_terminator`. */
  function CubeSetTerminator(s: string): (r: (seq<Cube>, string))
    ensures IsSuffix(r.1, s)
  {
    var cubeSet := CubeSet(s);
    SuffixTransitive(Terminator(cubeSet.1), cubeSet.1, s);
    (cubeSet.0, Terminator(cubeSet.1))
  }

  /** The `end` of `cube_set_terminators`: a line feed and the blanks after
      it, or the end of the input. */
  function End(s: string): (r: Option<string>)
    ensures r.Some? ==> IsSuffix(r.value, s)
  {
    if s != [] && s[0] == '\n' then Some(Multispace0(s[1..]))
    else if s == [] then Some(s)
    else None
  }

  /** `cube_set_terminators`: `many_till(cube_set_terminator, end)`, which
      fails when a set consumes nothing before the end is reached. */
  function CubeSetTerminators(s: string): (r: Parsed<seq<seq<Cube>>>)
    ensures Consumes(r, s)
    decreases |s|
  {
    var e := End(s);
    if e.Some? then Success([], e.value)
    else
      var cubeSet := CubeSetTerminator(s);
      if |cubeSet.1| == |s| then Failure
      else
        var more := CubeSetTerminators(cubeSet.1);
        if more.Failure? then Failure
        else
          SuffixTransitive(more.rest, cubeSet.1, s);
          Success([cubeSet.0] + more.value, more.rest)
  }

  /** `record_start`: "Game", the id and a colon, blanks allowed around. */
  function RecordStart(s: string): (r: Parsed<nat>)
    ensures Consumes(r, s)
  {
    var t := Tag("Game", Multispace0(s));
    if t.None? then Failure
    else
      var n := Unsigned(Space0(t.value));
      if n.Failure? then Failure
      else
        var colon := Char(':', n.rest);
        if colon.Failure? then Failure
        else
          SuffixTransitive(t.value, Multispace0(s), s);
          SuffixTransitive(Space0(t.value), t.value, s);
          SuffixTransitive(n.rest, Space0(t.value), s);
          SuffixTransitive(colon.rest, n.rest, s);
          SuffixTransitive(Space0(colon.rest), colon.rest, s);
          Success(n.value, Space0(colon.rest))
  }

  /** `game_record`. */
  function GameRecord(s: string): (r: Parsed<Game>)
    ensures Consumes(r, s)
  {
    var id := RecordStart(s);
    if id.Failure? then Failure
    else
      var sets := CubeSetTerminators(id.rest);
      if sets.Failure? then Failure
      else
        SuffixTransitive(sets.rest, id.rest, s);
        Success(Game(id.value, sets.value), sets.rest)
  }

  /** `parser`: the game of a line, or nothing when the line does not parse. */
  function Parser(line: string): Option<Game>
  {
    var g := GameRecord(line);
    if g.Success? then Some(g.value) else None
  }

  // ---------------------------------------------------------------------
  // The text of a game, as the puzzle input writes it.

  function CubeText(c: Cube): string
  {
    Decimal(c.count) + (" " + ColourName(c.colour))
  }

  /** A set written with ", " between its cubes. */
  function SetText(cubes: seq<Cube>): string
    requires cubes != []
  {
    if |cubes| == 1 then CubeText(cubes[0]) else CubeText(cubes[0]) + (", " + SetText(cubes[1..]))
  }

  /** The sets written with "; " between them. */
  function SetsText(sets: seq<seq<Cube>>): string
    requires forall i :: 0 <= i < |sets| ==> sets[i] != []
  {
    if sets == [] then []
    else if |sets| == 1 then SetText(sets[0])
    else SetText(sets[0]) + ("; " + SetsText(sets[1..]))
  }

  /** A game written as the puzzle input writes it. */
  function GameText(g: Game): string
    requires forall i :: 0 <= i < |g.sets| ==> g.sets[i] != []
  {
    "Game" + (" " + (Decimal(g.id) + (": " + SetsText(g.sets))))
  }

  /** A set of one cube is written as that cube. */
  lemma SetTextOne(cubes: seq<Cube>)
    requires |cubes| == 1
    ensures SetText(cubes) == CubeText(cubes[0])
  {
  }

  /** A longer set is its first cube, ", " and the others. */
  lemma SetTextMore(cubes: seq<Cube>)
    requires |cubes| > 1
    ensures SetText(cubes) == CubeText(cubes[0]) + (", " + SetText(cubes[1..]))
  {
  }

  /** Every written set starts with a digit. */
  lemma SetTextStarts(cubes: seq<Cube>)
    requires cubes != []
    ensures SetText(cubes) != [] && IsDigit(SetText(cubes)[0])
  {
    FirstOf(Decimal(cubes[0].count), " " + ColourName(cubes[0].colour));
    if |cubes| > 1 {
      FirstOf(CubeText(cubes[0]), ", " + SetText(cubes[1..]));
    }
  }

  lemma SetsTextMore(sets: seq<seq<Cube>>)
    requires |sets| > 1 && forall i :: 0 <= i < |sets| ==> sets[i] != []
    ensures SetsText(sets) == SetText(sets[0]) + ("; " + SetsText(sets[1..]))
  {
  }

  // ---------------------------------------------------------------------
  // How the combinators step, each under the results of the parsers it
  // calls.

  /** `cube` on input whose count and colour are known. */
  lemma CubeParserOn(s: string, n: nat, afterCount: string, c: Colour, rest: string)
    requires Unsigned(s) == Success(n, afterCount)
    requires ColourParser(Space0(afterCount)) == Success(c, rest)
    ensures CubeParser(s) == Success(Cube(n, c), rest)
  {
  }

  /** `many0` stops where no cube starts. */
  lemma CubeSetStops(s: string)
    requires s == [] || !IsDigit(s[0])
    ensures CubeSet(s) == ([], s)
  {
  }

  /** `many0` goes on after a cube. */
  lemma CubeSetGoesOn(s: string, c: Cube, rest: string)
    requires CubeSeparator(s) == Success(c, rest)
    ensures CubeSet(s) == ([c] + CubeSet(rest).0, CubeSet(rest).1)
  {
  }

  /** `cube_separator` after a cube. */
  lemma CubeSeparatorOn(s: string, c: Cube, rest: string)
    requires CubeParser(s) == Success(c, rest)
    ensures CubeSeparator(s) == Success(c, Separator(Space0(rest)))
  {
  }

  /** Neither spaces nor a comma: `cube_separator` takes nothing more. */
  lemma NoSeparator(rest: string)
    requires rest == [] || (!IsSpace(rest[0]) && rest[0] != ',')
    ensures Separator(Space0(rest)) == rest
  {
    assert SpanLength(rest, IsSpace) == 0;
  }

  /** `record_start` on input whose tag, id and colon are known. */
  lemma RecordStartOn(s: string, afterTag: string, id: nat, afterId: string, afterColon: string)
    requires Tag("Game", Multispace0(s)) == Some(afterTag)
    requires Unsigned(Space0(afterTag)) == Success(id, afterId)
    requires Char(':', afterId) == Success(':', afterColon)
    ensures RecordStart(s) == Success(id, Space0(afterColon))
  {
  }

  /** `game_record` on input whose start and sets are known. */
  lemma GameRecordOn(s: string, id: nat, afterStart: string, sets: seq<seq<Cube>>)
    requires RecordStart(s) == Success(id, afterStart)
    requires CubeSetTerminators(afterStart) == Success(sets, "")
    ensures Parser(s) == Some(Game(id, sets))
  {
  }

  /** `many_till` after a set that consumed something. */
  lemma TerminatorsGoOn(s: string, cubes: seq<Cube>, rest: string)
    requires s != [] && s[0] != '\n'
    requires CubeSetTerminator(s) == (cubes, rest) && |rest| < |s|
    requires CubeSetTerminators(rest).Success?
    ensures CubeSetTerminators(s) == Success([cubes] + CubeSetTerminators(rest).value, CubeSetTerminators(rest).rest)
  {
  }

  // ---------------------------------------------------------------------
  // `max_cubes`.

  /** The cubes of all sets, in order (`iter().flatten()`). */
  function Flatten(sets: seq<seq<Cube>>): seq<Cube>
  {
    if sets == [] then [] else Flatten(sets[..|sets| - 1]) + sets[|sets| - 1]
  }

  function Max(a: nat, b: nat): nat { if a < b then b else a }

  /** The largest count of colour `c` among `cubes`, 0 when there is none. */
  function MaxOf(cubes: seq<Cube>, c: Colour): nat
  {
    if cubes == [] then 0
    else
      var last := cubes[|cubes| - 1];
      var before := MaxOf(cubes[..|cubes| - 1], c);
      if last.colour == c then Max(before, last.count) else before
  }

  /** `MaxOf` is the maximum: every cube of the colour is within it, and it
      is 0 or the count of one of them. */
  lemma {:induction false} MaxOfIsMax(cubes: seq<Cube>, c: Colour)
    ensures forall i :: 0 <= i < |cubes| && cubes[i].colour == c ==> cubes[i].count <= MaxOf(cubes, c)
    ensures MaxOf(cubes, c) == 0 || exists i :: 0 <= i < |cubes| && cubes[i].colour == c && cubes[i].count == MaxOf(cubes, c)
  {
    if cubes != [] {
      MaxOfIsMax(cubes[..|cubes| - 1], c);
    }
  }

  /** A bound holds for every cube of a colour exactly when it holds for
      `MaxOf`: the maximum is the fewest cubes of that colour that make
      every set of the game possible. */
  lemma MaxOfIsLeastBound(cubes: seq<Cube>, c: Colour, bound: nat)
    ensures (forall i :: 0 <= i < |cubes| && cubes[i].colour == c ==> cubes[i].count <= bound) <==> MaxOf(cubes, c) <= bound
  {
    MaxOfIsMax(cubes, c);
  }

  /** `Game::max_cubes`: one pass over all cubes, keeping three running
      maxima. */
  method MaxCubes(g: Game) returns (red: nat, green: nat, blue: nat)
    ensures red == MaxOf(Flatten(g.sets), Red) && green == MaxOf(Flatten(g.sets), Green) && blue == MaxOf(Flatten(g.sets), Blue)
    ensures forall i :: 0 <= i < |Flatten(g.sets)| ==>
      var cube := Flatten(g.sets)[i];
      cube.count <= match cube.colour case Red => red case Green => green case Blue => blue
  {
    var cubes := Flatten(g.sets);
    red, green, blue := 0, 0, 0;
    var i := 0;
    while i < |cubes|
      invariant 0 <= i <= |cubes|
      invariant red == MaxOf(cubes[..i], Red) && green == MaxOf(cubes[..i], Green) && blue == MaxOf(cubes[..i], Blue)
    {
      assert cubes[..i + 1][..i] == cubes[..i];
      var count := cubes[i].count;
      match cubes[i].colour {
        case Red =>
          if count > red {
            red := count;
          }
        case Green =>
          if count > green {
            green := count;
          }
        case Blue =>
          if count > blue {
            blue := count;
          }
      }
      i := i + 1;
    }
    assert cubes[..i] == cubes;
    MaxOfIsMax(cubes, Red);
    MaxOfIsMax(cubes, Green);
    MaxOfIsMax(cubes, Blue);
  }

  // ---------------------------------------------------------------------
  // The two parts.

  /** The games of the lines that parse, in order. */
  function Games(lines: seq<string>): seq<Game>
  {
    if lines == [] then []
    else
      var g := Parser(lines[0]);
      (if g.Some? then [g.value] else []) + Games(lines[1..])
  }

  /** The game could be played with 12 red, 13 green and 14 blue cubes. */
  predicate Possible(g: Game)
  {
    var cubes := Flatten(g.sets);
    MaxOf(cubes, Red) <= 12 && MaxOf(cubes, Green) <= 13 && MaxOf(cubes, Blue) <= 14
  }

  function Limit(c: Colour): nat
  {
    match c
    case Red => 12
    case Green => 13
    case Blue => 14
  }

  /** A game is possible exactly when no cube it shows exceeds its colour's
      limit. */
  lemma PossibleMeans(g: Game)
    ensures Possible(g) <==> forall i :: 0 <= i < |Flatten(g.sets)| ==> Flatten(g.sets)[i].count <= Limit(Flatten(g.sets)[i].colour)
  {
    var cubes := Flatten(g.sets);
    WithinLimit(cubes, Red);
    WithinLimit(cubes, Green);
    WithinLimit(cubes, Blue);
    if Possible(g) {
      forall i | 0 <= i < |cubes|
        ensures cubes[i].count <= Limit(cubes[i].colour)
      {
        WithinLimit(cubes, cubes[i].colour);
      }
    } else {
      var c := if MaxOf(cubes, Red) > 12 then Red else if MaxOf(cubes, Green) > 13 then Green else Blue;
      assert MaxOf(cubes, c) > Limit(c);
      var i :| 0 <= i < |cubes| && cubes[i].colour == c && cubes[i].count > Limit(c);
      assert Flatten(g.sets)[i].count > Limit(Flatten(g.sets)[i].colour);
    }
  }

  /** One colour's maximum is within its limit exactly when every cube of
      that colour is. */
  lemma WithinLimit(cubes: seq<Cube>, c: Colour)
    ensures MaxOf(cubes, c) <= Limit(c) <==> forall i :: 0 <= i < |cubes| && cubes[i].colour == c ==> cubes[i].count <= Limit(cubes[i].colour)
  {
    MaxOfIsLeastBound(cubes, c, Limit(c));
  }

  function IdIfPossible(g: Game): int
  {
    if Possible(g) then g.id else 0
  }

  /** The power of a game: the product of its three maxima. */
  function Power(g: Game): int
  {
    var cubes := Flatten(g.sets);
    MaxOf(cubes, Red) * MaxOf(cubes, Green) * MaxOf(cubes, Blue)
  }

  /** `part01`, given the text of the input. */
  function Part01(text: string): int
  {
    SumOf(Games(Lines(text)), IdIfPossible)
  }

  /** `part02`, given the text of the input. */
  function Part02(text: string): int
  {
    SumOf(Games(Lines(text)), Power)
  }

  /** The power is the product of the smallest bag that makes the game
      possible: any bag that makes it possible holds at least the maxima. */
  lemma PowerIsSmallestBag(g: Game, r: nat, gr: nat, b: nat)
    requires forall i :: 0 <= i < |Flatten(g.sets)| ==>
      Flatten(g.sets)[i].count <= match Flatten(g.sets)[i].colour case Red => r case Green => gr case Blue => b
    ensures Power(g) <= r * gr * b
  {
    var cubes := Flatten(g.sets);
    MaxOfIsLeastBound(cubes, Red, r);
    MaxOfIsLeastBound(cubes, Green, gr);
    MaxOfIsLeastBound(cubes, Blue, b);
    var mr, mg, mb := MaxOf(cubes, Red), MaxOf(cubes, Green), MaxOf(cubes, Blue);
    assert mr * mg <= r * gr by { MulMono(mr, mg, r, gr); }
    MulMono(mr * mg, mb, r * gr, b);
  }

  lemma MulMono(a: nat, b: nat, c: nat, d: nat)
    requires a <= c && b <= d
    ensures a * b <= c * d
  {
    assert a * b <= c * b;
    assert c * b <= c * d;
  }

  /** Part 1 only counts possible games, so it is at most the sum of all ids
      and at least 0. */
  lemma {:induction false} Part01Bounds(games: seq<Game>)
    ensures 0 <= SumOf(games, IdIfPossible) <= SumOf(games, (g: Game) => g.id as int)
  {
    if games != [] {
      Part01Bounds(games[1..]);
    }
  }
}
