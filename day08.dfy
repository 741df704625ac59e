/** Day 8 (day08/src/main.rs): a list of left/right turns and a network of
    nodes, each with a left and a right neighbour; part 1 follows the turns
    round after round from node AAA until a round ends at node ZZZ. */
module Day08 {

  import opened Parsing

  datatype Direction = Left | Right

  /** `Mapping`: the left and the right neighbour of a node. */
  datatype Mapping = Mapping(left: string, right: string)

  /** `MapData`: the turns and the network, keyed by node name. */
  datatype MapData = MapData(directions: seq<Direction>, network: map<string, Mapping>)

  predicate IsName(s: string)
  {
    |s| > 0 && forall i :: 0 <= i < |s| ==> IsAlpha(s[i])
  }

  // ---------------------------------------------------------------------
  // The grammar.

  /** `direction`: 'L' or 'R'. */
  function ReadDirection(s: string): (r: Parsed<Direction>)
    ensures r.Success? <==> s != [] && (s[0] == 'L' || s[0] == 'R')
    ensures r.Success? ==> r.rest == s[1..] && (r.value == Left <==> s[0] == 'L')
  {
    if s != [] && s[0] == 'L' then Success(Left, s[1..])
    else if s != [] && s[0] == 'R' then Success(Right, s[1..])
    else Failure
  }

  /** `directions`: `many0(direction)`, the longest run of turns. */
  function ReadDirections(s: string): (r: (seq<Direction>, string))
    ensures IsSuffix(r.1, s) && |r.0| + |r.1| == |s|
    ensures ReadDirection(r.1).Failure?
    decreases |s|
  {
    var d := ReadDirection(s);
    if d.Failure? then ([], s)
    else
      var more := ReadDirections(d.rest);
      ([d.value] + more.0, more.1)
  }

  /** `alpha1`: one or more letters. */
  function Alpha1(s: string): (r: Parsed<string>)
    ensures r.Success? <==> s != [] && IsAlpha(s[0])
    ensures r.Success? ==> IsName(r.value) && r.value + r.rest == s && (r.rest == [] || !IsAlpha(r.rest[0]))
  {
    var n := SpanLength(s, IsAlpha);
    assert s[..n] + s[n..] == s;
    if n == 0 then Failure else Success(s[..n], s[n..])
  }

  /** `space0` then `char(c)`. */
  function Spaced(c: char, s: string): (r: Parsed<char>)
    ensures r.Success? ==> |r.rest| < |s|
  {
    Char(c, Space0(s))
  }

  /** `space0` then `alpha1`. */
  function SpacedName(s: string): (r: Parsed<string>)
    ensures r.Success? ==> |r.rest| < |s|
  {
    Alpha1(Space0(s))
  }

  /** ` = (`: the text between a node and its left neighbour. */
  function Opening(s: string): (r: Option<string>)
    ensures r.Some? ==> |r.value| < |s|
  {
    var eq := Spaced('=', s);
    if eq.Failure? then None else
    var open := Spaced('(', eq.rest);
    if open.Failure? then None else
    Some(open.rest)
  }

  /** `left, right)`: the left name right after the parenthesis, the
      comma and the right name each after optional spaces, then the blanks
      after the line. */
  function Neighbours(s: string): (r: Parsed<Mapping>)
    ensures r.Success? <==> s != [] && IsAlpha(s[0]) && Spaced(',', Alpha1(s).rest).Success? &&
                            SpacedName(Spaced(',', Alpha1(s).rest).rest).Success? &&
                            Spaced(')', SpacedName(Spaced(',', Alpha1(s).rest).rest).rest).Success?
    ensures r.Success? ==> |r.rest| < |s| && IsName(r.value.left) && IsName(r.value.right)
  {
    var left := Alpha1(s);
    if left.Failure? then Failure else
    var comma := Spaced(',', left.rest);
    if comma.Failure? then Failure else
    var right := SpacedName(comma.rest);
    if right.Failure? then Failure else
    var close := Spaced(')', right.rest);
    if close.Failure? then Failure else
    Success(Mapping(left.value, right.value), Multispace0(close.rest))
  }

  /** `map_line`: `name = (left, right)`, with optional spaces around the
      punctuation, and the blanks after it. */
  function MapLine(s: string): (r: Parsed<(string, Mapping)>)
    ensures r.Success? ==> |r.rest| < |s| && IsName(r.value.0) && IsName(r.value.1.left) && IsName(r.value.1.right)
    ensures Alpha1(s).Success? && Opening(Alpha1(s).rest).Some? ==>
              (r.Success? <==> Neighbours(Opening(Alpha1(s).rest).value).Success?)
    ensures Alpha1(s).Failure? || Opening(Alpha1(s).rest).None? ==> r.Failure?
  {
    var source := Alpha1(s);
    if source.Failure? then Failure else
    var open := Opening(source.rest);
    if open.None? then Failure else
    var neighbours := Neighbours(open.value);
    if neighbours.Failure? then Failure else
    Success((source.value, neighbours.value), neighbours.rest)
  }

  /** `many0(map_line)`. */
  function MapLines(s: string): (r: (seq<(string, Mapping)>, string))
    ensures |r.1| <= |s|
    decreases |s|
  {
    var line := MapLine(s);
    if line.Failure? then ([], s)
    else
      var more := MapLines(line.rest);
      ([line.value] + more.0, more.1)
  }

  /** `collect::<HashMap<_, _>>()`: each entry inserted in turn, so a later
      entry for a node replaces an earlier one. */
  function ToMap(entries: seq<(string, Mapping)>): (m: map<string, Mapping>)
    ensures forall k :: k in m <==> exists i :: 0 <= i < |entries| && entries[i].0 == k
    decreases |entries|
  {
    if entries == [] then map[]
    else
      var front := entries[..|entries| - 1];
      var last := entries[|entries| - 1];
      assert forall i :: 0 <= i < |front| ==> front[i] == entries[i];
      ToMap(front)[last.0 := last.1]
  }

  /** `data` (and `parser`, whose error case cannot arise since every part
      of the grammar may match nothing): the turns, blanks, then the
      network. */
  function Data(s: string): MapData
  {
    var directions := ReadDirections(s);
    var lines := MapLines(Multispace0(directions.1));
    MapData(directions.0, ToMap(lines.0))
  }

  // ---------------------------------------------------------------------
  // Facts about the grammar.

  /** A node takes the mapping of its last entry. */
  lemma {:induction false} ToMapLast(entries: seq<(string, Mapping)>, i: nat)
    requires i < |entries|
    requires forall j :: i < j < |entries| ==> entries[j].0 != entries[i].0
    ensures ToMap(entries)[entries[i].0] == entries[i].1
    decreases |entries|
  {
    if i < |entries| - 1 {
      ToMapLast(entries[..|entries| - 1], i);
    }
  }

  function DirectionChar(d: Direction): char
  {
    if d == Left then 'L' else 'R'
  }

  function DirectionsText(ds: seq<Direction>): (s: string)
    ensures |s| == |ds|
    decreases |ds|
  {
    if ds == [] then [] else [DirectionChar(ds[0])] + DirectionsText(ds[1..])
  }

  /** Written turns read back, up to the first character that is no turn. */
  lemma {:induction false} DirectionsRoundTrip(ds: seq<Direction>, rest: string)
    requires rest == [] || (rest[0] != 'L' && rest[0] != 'R')
    ensures ReadDirections(DirectionsText(ds) + rest) == (ds, rest)
    decreases |ds|
  {
    var t := DirectionsText(ds) + rest;
    if ds == [] {
      assert t == rest;
    } else {
      var tail := DirectionsText(ds[1..]) + rest;
      assert t == [DirectionChar(ds[0])] + tail;
      assert ReadDirection(t) == Success(ds[0], tail);
      DirectionsRoundTrip(ds[1..], rest);
      assert ds == [ds[0]] + ds[1..];
    }
  }

  /** A name reads back up to the first character that is no letter. */
  lemma Alpha1RoundTrip(name: string, rest: string)
    requires IsName(name)
    requires rest == [] || !IsAlpha(rest[0])
    ensures Alpha1(name + rest) == Success(name, rest)
  {
    SpanOf(name, rest, IsAlpha);
    assert (name + rest)[..|name|] == name;
    assert (name + rest)[|name|..] == rest;
  }

  /** Optional spaces, then the punctuation. */
  lemma SpacedRoundTrip(c: char, spaces: string, rest: string)
    requires !IsSpace(c)
    requires forall i :: 0 <= i < |spaces| ==> spaces[i] == ' '
    ensures Spaced(c, spaces + ([c] + rest)) == Success(c, rest)
  {
    SpacesThen(spaces, [c] + rest);
    assert ([c] + rest)[1..] == rest;
  }

  /** A line of the network as it is written, `AAA = (BBB, CCC)`. */
  function LineText(source: string, left: string, right: string, tail: string): string
  {
    source + (" = (" + NeighboursText(left, right, tail))
  }

  /** `left, right)`, then `tail`. */
  function NeighboursText(left: string, right: string, tail: string): string
  {
    left + ([','] + ([' '] + (right + ([')'] + tail))))
  }

  /** The text between a node and its left neighbour reads back. */
  lemma OpeningRoundTrip(rest: string)
    ensures Opening(" = (" + rest) == Some(rest)
  {
    var afterEq := " " + ("(" + rest);
    assert " = (" + rest == " " + ("=" + afterEq);
    SpacedRoundTrip('=', " ", afterEq);
    SpacedRoundTrip('(', " ", rest);
  }

  /** Optional spaces, then a name. */
  lemma SpacedNameRoundTrip(spaces: string, name: string, rest: string)
    requires forall i :: 0 <= i < |spaces| ==> spaces[i] == ' '
    requires IsName(name) && (rest == [] || !IsAlpha(rest[0]))
    ensures SpacedName(spaces + (name + rest)) == Success(name, rest)
  {
    SpacesThen(spaces, name + rest);
    Alpha1RoundTrip(name, rest);
  }

  /** Punctuation right at the start. */
  lemma CharRoundTrip(c: char, rest: string)
    requires !IsSpace(c)
    ensures Spaced(c, [c] + rest) == Success(c, rest)
  {
    NoSpaces([c] + rest);
    assert ([c] + rest)[1..] == rest;
  }

  /** The line break after a line. */
  lemma NewlineThen(rest: string)
    requires rest == [] || !IsMultispace(rest[0])
    ensures Multispace0("\n" + rest) == rest
  {
    MultispacesThen("\n", rest);
  }

  /** `Neighbours` on a text whose pieces read as given. */
  lemma NeighboursOn(s: string, left: string, afterLeft: string, afterComma: string,
                     right: string, afterRight: string, afterClose: string)
    requires Alpha1(s) == Success(left, afterLeft)
    requires Spaced(',', afterLeft) == Success(',', afterComma)
    requires SpacedName(afterComma) == Success(right, afterRight)
    requires Spaced(')', afterRight) == Success(')', afterClose)
    ensures Neighbours(s) == Success(Mapping(left, right), Multispace0(afterClose))
  {
  }

  /** The left neighbour and the comma after it read back. */
  lemma LeftHalf(left: string, afterComma: string)
    requires IsName(left)
    ensures Alpha1(left + ([','] + afterComma)) == Success(left, [','] + afterComma)
    ensures Spaced(',', [','] + afterComma) == Success(',', afterComma)
  {
    Alpha1RoundTrip(left, [','] + afterComma);
    CharRoundTrip(',', afterComma);
  }

  /** The right neighbour, after its space, and the closing parenthesis
      read back. */
  lemma RightHalf(right: string, afterClose: string)
    requires IsName(right)
    ensures SpacedName([' '] + (right + ([')'] + afterClose))) == Success(right, [')'] + afterClose)
    ensures Spaced(')', [')'] + afterClose) == Success(')', afterClose)
  {
    SpacedNameRoundTrip([' '], right, [')'] + afterClose);
    CharRoundTrip(')', afterClose);
  }

  /** The neighbours as written read back. */
  lemma NeighboursRoundTrip(left: string, right: string, rest: string)
    requires IsName(left) && IsName(right)
    requires rest == [] || !IsMultispace(rest[0])
    ensures Neighbours(NeighboursText(left, right, "\n" + rest)) == Success(Mapping(left, right), rest)
  {
    var afterClose := "\n" + rest;
    var afterRight := [')'] + afterClose;
    var afterComma := [' '] + (right + afterRight);
    var afterLeft := [','] + afterComma;
    LeftHalf(left, afterComma);
    RightHalf(right, afterClose);
    NeighboursOn(left + afterLeft, left, afterLeft, afterComma, right, afterRight, afterClose);
    NewlineThen(rest);
  }

  /** `MapLine` on a text whose pieces read as given. */
  lemma MapLineOn(s: string, source: string, afterSource: string, afterOpen: string, m: Mapping, rest: string)
    requires Alpha1(s) == Success(source, afterSource)
    requires Opening(afterSource) == Some(afterOpen)
    requires Neighbours(afterOpen) == Success(m, rest)
    ensures MapLine(s) == Success((source, m), rest)
  {
  }

  /** A written line reads back as its node and mapping, the line break
      after it taken as well. */
  lemma MapLineRoundTrip(source: string, left: string, right: string, rest: string)
    requires IsName(source) && IsName(left) && IsName(right)
    requires rest == [] || !IsMultispace(rest[0])
    ensures MapLine(LineText(source, left, right, "\n" + rest)) == Success((source, Mapping(left, right)), rest)
  {
    var neighbours := NeighboursText(left, right, "\n" + rest);
    var afterSource := " = (" + neighbours;
    Alpha1RoundTrip(source, afterSource);
    OpeningRoundTrip(neighbours);
    NeighboursRoundTrip(left, right, rest);
    MapLineOn(source + afterSource, source, afterSource, neighbours, Mapping(left, right), rest);
  }

  /** The lines of a network, each ended by a line break, then `tail`. */
  function NetworkText(entries: seq<(string, Mapping)>, tail: string): string
    decreases |entries|
  {
    if entries == [] then tail
    else LineText(entries[0].0, entries[0].1.left, entries[0].1.right, "\n" + NetworkText(entries[1..], tail))
  }

  predicate WellNamed(entries: seq<(string, Mapping)>)
  {
    forall i :: 0 <= i < |entries| ==>
      IsName(entries[i].0) && IsName(entries[i].1.left) && IsName(entries[i].1.right)
  }

  /** What `many0(map_line)` may stop at: the end, or a line that opens
      with a name but does not read as a mapping. */
  predicate StopsLines(tail: string)
  {
    (tail == [] || IsAlpha(tail[0])) && MapLine(tail).Failure?
  }

  lemma NetworkStart(entries: seq<(string, Mapping)>, tail: string)
    requires WellNamed(entries) && (tail == [] || IsAlpha(tail[0]))
    ensures NetworkText(entries, tail) == [] || IsAlpha(NetworkText(entries, tail)[0])
  {
    if entries != [] {
      assert NetworkText(entries, tail)[0] == entries[0].0[0];
    }
  }

  /** Written lines read back as their entries, up to a text that is no
      mapping. */
  lemma {:induction false} MapLinesRoundTrip(entries: seq<(string, Mapping)>, tail: string)
    requires WellNamed(entries) && StopsLines(tail)
    ensures MapLines(NetworkText(entries, tail)) == (entries, tail)
    decreases |entries|
  {
    if entries != [] {
      FirstLine(entries, tail);
      MapLinesRoundTrip(entries[1..], tail);
      MapLinesOn(NetworkText(entries, tail), entries[0], NetworkText(entries[1..], tail), entries[1..], tail);
      HeadTail(entries);
    }
  }

  /** The first written line reads back, leaving the others. */
  lemma FirstLine(entries: seq<(string, Mapping)>, tail: string)
    requires entries != [] && WellNamed(entries) && (tail == [] || IsAlpha(tail[0]))
    ensures WellNamed(entries[1..])
    ensures MapLine(NetworkText(entries, tail)) == Success(entries[0], NetworkText(entries[1..], tail))
  {
    var e := entries[0];
    assert forall i :: 0 <= i < |entries[1..]| ==> entries[1..][i] == entries[i + 1];
    NetworkStart(entries[1..], tail);
    MapLineRoundTrip(e.0, e.1.left, e.1.right, NetworkText(entries[1..], tail));
  }

  /** `MapLines` on a text whose first line reads as given. */
  lemma MapLinesOn(s: string, e: (string, Mapping), rest: string, more: seq<(string, Mapping)>, end: string)
    requires MapLine(s) == Success(e, rest)
    requires MapLines(rest) == (more, end)
    ensures MapLines(s) == ([e] + more, end)
  {
  }

  /** A line with a blank between `(` and the left neighbour,
      `AAA = ( BBB, CCC)`: `char('(')` is followed by `alpha1` directly,
      so the line is not a mapping. */
  lemma BlankAfterParenthesis(source: string, left: string, right: string, tail: string)
    requires IsName(source) && IsName(left) && IsName(right)
    ensures StopsLines(source + (" = ( " + NeighboursText(left, right, tail)))
  {
    var neighbours := NeighboursText(left, right, tail);
    var afterSource := " = ( " + neighbours;
    assert afterSource == " = (" + (" " + neighbours);
    Alpha1RoundTrip(source, afterSource);
    OpeningRoundTrip(" " + neighbours);
    assert !IsAlpha((" " + neighbours)[0]);
  }

  /** `many0(map_line)` stops at such a line: the lines before it are read,
      and it and every line after it are left unread. */
  lemma MapLinesStopAtBlank(entries: seq<(string, Mapping)>, source: string, left: string, right: string, tail: string)
    requires WellNamed(entries) && IsName(source) && IsName(left) && IsName(right)
    ensures var bad := source + (" = ( " + NeighboursText(left, right, tail));
            MapLines(NetworkText(entries, bad)) == (entries, bad)
  {
    BlankAfterParenthesis(source, left, right, tail);
    MapLinesRoundTrip(entries, source + (" = ( " + NeighboursText(left, right, tail)));
  }

  /** A written puzzle input reads back as its turns and the network its
      lines describe. */
  lemma DataRoundTrip(ds: seq<Direction>, entries: seq<(string, Mapping)>)
    requires WellNamed(entries)
    ensures Data(DirectionsText(ds) + ("\n\n" + NetworkText(entries, []))) == MapData(ds, ToMap(entries))
  {
    var network := NetworkText(entries, []);
    DirectionsRoundTrip(ds, "\n\n" + network);
    NetworkStart(entries, []);
    MultispacesThen("\n\n", network);
    MapLinesRoundTrip(entries, []);
  }

  // ---------------------------------------------------------------------
  // The traversal.

  /** One turn from `location`: `map.get(location).unwrap()`, then its left
      or right neighbour; `None` where the lookup panics. */
  function Step(network: map<string, Mapping>, location: string, d: Direction): (r: Option<string>)
    ensures r.Some? <==> location in network
  {
    if location !in network then None
    else if d == Left then Some(network[location].left)
    else Some(network[location].right)
  }

  /** One round: the fold of every turn of the list, in order, from `start`. */
  function Round(network: map<string, Mapping>, directions: seq<Direction>, start: string): (r: Option<string>)
    ensures directions == [] ==> r == Some(start)
    ensures directions != [] && start !in network ==> r.None?
    ensures directions != [] && r.Some? ==> exists node :: node in network && r.value in {network[node].left, network[node].right}
    decreases |directions|
  {
    if directions == [] then Some(start)
    else
      var next := Step(network, start, directions[0]);
      if next.None? then None else Round(network, directions[1..], next.value)
  }

  /** A round over two lists of turns is the round over the first, then
      the round over the second from where the first ends. */
  lemma {:induction false} RoundSplit(network: map<string, Mapping>, a: seq<Direction>, b: seq<Direction>, start: string)
    ensures Round(network, a + b, start) ==
            var middle := Round(network, a, start);
            if middle.None? then None else Round(network, b, middle.value)
    decreases |a|
  {
    if a != [] {
      assert (a + b)[1..] == a[1..] + b;
      var next := Step(network, start, a[0]);
      if next.Some? {
        RoundSplit(network, a[1..], b, next.value);
      }
    } else {
      assert a + b == b;
    }
  }

  /** Where `k` rounds from `start` end. */
  function After(network: map<string, Mapping>, directions: seq<Direction>, start: string, k: nat): Option<string>
    decreases k
  {
    if k == 0 then Some(start)
    else
      var next := Round(network, directions, start);
      if next.None? then None else After(network, directions, next.value, k - 1)
  }

  /** How the walk ends: at ZZZ after that many turns, in a panic, or still
      walking when the bound on the rounds is reached. */
  datatype Outcome = Arrived(steps: nat) | Panicked | OutOfFuel

  /** `n` more turns before an arrival. */
  function Later(o: Outcome, n: nat): Outcome
  {
    if o.Arrived? then Arrived(o.steps + n) else o
  }

  /** The walk of `part01` from `start`, at most `fuel` rounds: the turns
      are counted a whole round at a time, and ZZZ is looked for only at
      the end of a round. */
  function Travel(network: map<string, Mapping>, directions: seq<Direction>, start: string, fuel: nat): Outcome
    decreases fuel
  {
    if fuel == 0 then OutOfFuel
    else
      var next := Round(network, directions, start);
      if next.None? then Panicked
      else if next.value == "ZZZ" then Arrived(|directions|)
      else Later(Travel(network, directions, next.value, fuel - 1), |directions|)
  }

  /** `part01`, its `while` loop run for at most `fuel` rounds. */
  method Part01(data: MapData, fuel: nat) returns (outcome: Outcome)
    ensures outcome == Travel(data.network, data.directions, "AAA", fuel)
  {
    var len := |data.directions|;
    var count := 0;
    var start := "AAA";
    var destination := "";
    var rounds := 0;
    while destination != "ZZZ"
      invariant rounds <= fuel
      invariant count == rounds * len
      invariant destination != "ZZZ" ==>
                  Travel(data.network, data.directions, "AAA", fuel)
                  == Later(Travel(data.network, data.directions, start, fuel - rounds), count)
      invariant destination == "ZZZ" ==> Travel(data.network, data.directions, "AAA", fuel) == Arrived(count)
      decreases fuel - rounds
    {
      if rounds == fuel {
        return OutOfFuel;
      }
      var next := Round(data.network, data.directions, start);
      if next.None? {
        return Panicked;
      }
      destination := next.value;
      count := count + len;
      start := destination;
      rounds := rounds + 1;
    }
    outcome := Arrived(count);
  }

  // ---------------------------------------------------------------------
  // Facts about the traversal.

  /** `k` rounds from `start` end at ZZZ, and no fewer rounds (but none)
      do. */
  predicate FirstArrival(network: map<string, Mapping>, directions: seq<Direction>, start: string, k: nat)
  {
    After(network, directions, start, k) == Some("ZZZ") &&
    forall j :: 1 <= j < k ==> After(network, directions, start, j) != Some("ZZZ")
  }

  /** A first arrival after `k + 1` rounds is a first arrival after `k`
      rounds from where the first round ends. */
  lemma FirstArrivalStep(network: map<string, Mapping>, directions: seq<Direction>, start: string, next: string, k: nat)
    requires Round(network, directions, start) == Some(next) && next != "ZZZ" && k >= 1
    ensures FirstArrival(network, directions, start, k + 1) <==> FirstArrival(network, directions, next, k)
  {
    assert After(network, directions, start, 1) == Some(next);
    forall j | 1 <= j
      ensures After(network, directions, start, j + 1) == After(network, directions, next, j)
    {
    }
    if FirstArrival(network, directions, next, k) {
      forall j | 1 <= j < k + 1
        ensures After(network, directions, start, j) != Some("ZZZ")
      {
        if j > 1 {
          assert After(network, directions, start, (j - 1) + 1) == After(network, directions, next, j - 1);
        }
      }
    }
    if FirstArrival(network, directions, start, k + 1) {
      forall j | 1 <= j < k
        ensures After(network, directions, next, j) != Some("ZZZ")
      {
        assert After(network, directions, start, j + 1) != Some("ZZZ");
      }
    }
  }

  /** An arrival after `n` turns is a first arrival after some `k` whole
      rounds, `k` within the bound. */
  lemma {:induction false} TravelArrived(network: map<string, Mapping>, directions: seq<Direction>, start: string, fuel: nat)
    requires Travel(network, directions, start, fuel).Arrived?
    ensures var n := Travel(network, directions, start, fuel).steps;
            exists k :: 1 <= k <= fuel && n == k * |directions| && FirstArrival(network, directions, start, k)
    decreases fuel
  {
    var next := Round(network, directions, start).value;
    var n := Travel(network, directions, start, fuel).steps;
    if next == "ZZZ" {
      assert After(network, directions, start, 1) == Some("ZZZ");
      assert FirstArrival(network, directions, start, 1);
    } else {
      TravelArrived(network, directions, next, fuel - 1);
      var k :| 1 <= k <= fuel - 1 && n - |directions| == k * |directions| && FirstArrival(network, directions, next, k);
      FirstArrivalStep(network, directions, start, next, k);
      assert n == (k + 1) * |directions|;
    }
  }

  /** Conversely, a first arrival at ZZZ after `k` rounds, within the
      bound, is found after `k` times as many turns as the list holds. */
  lemma {:induction false} TravelArrives(network: map<string, Mapping>, directions: seq<Direction>, start: string, fuel: nat, k: nat)
    requires 1 <= k <= fuel
    requires FirstArrival(network, directions, start, k)
    ensures Travel(network, directions, start, fuel) == Arrived(k * |directions|)
    decreases k
  {
    var next := Round(network, directions, start);
    if k > 1 {
      assert After(network, directions, start, 1) != Some("ZZZ");
      FirstArrivalStep(network, directions, start, next.value, k - 1);
      TravelArrives(network, directions, next.value, fuel - 1, k - 1);
      assert k * |directions| == (k - 1) * |directions| + |directions|;
    }
  }

  /** A larger bound changes no outcome but running out. */
  lemma {:induction false} TravelMoreFuel(network: map<string, Mapping>, directions: seq<Direction>, start: string, fuel: nat, more: nat)
    requires !Travel(network, directions, start, fuel).OutOfFuel?
    ensures Travel(network, directions, start, fuel + more) == Travel(network, directions, start, fuel)
    decreases fuel
  {
    var next := Round(network, directions, start);
    if next.Some? && next.value != "ZZZ" {
      TravelMoreFuel(network, directions, next.value, fuel - 1, more);
    }
  }

  /** With no turns every round ends where it began, so from any node other
      than ZZZ the walk never arrives. */
  lemma {:induction false} NoTurnsNeverArrive(network: map<string, Mapping>, start: string, fuel: nat)
    requires start != "ZZZ"
    ensures Travel(network, [], start, fuel) == OutOfFuel
    decreases fuel
  {
    if fuel > 0 {
      NoTurnsNeverArrive(network, start, fuel - 1);
    }
  }

  /** Starting from a node the network lacks panics, if there is a turn. */
  lemma MissingNodePanics(network: map<string, Mapping>, directions: seq<Direction>, start: string, fuel: nat)
    requires directions != [] && start !in network && fuel > 0
    ensures Travel(network, directions, start, fuel) == Panicked
  {
  }
}
