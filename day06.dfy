/** Day 6 (day06/src/main.rs): the race sheet. Two lines, "Time:" and
    "Distance:", each followed by numbers. Part 1 reads the columns as
    separate races; part 2 reads the digits of each line as one number. */
module Day06 {

  import opened Parsing

  /** `TimeDistance`: one race. */
  datatype TimeDistance = TimeDistance(time: int, distance: int)

  // ---------------------------------------------------------------------
  // The shared pieces.

  /** `identifier`: letters (possibly none), then `:`. */
  function Identifier(s: string): (r: Parsed<string>)
    ensures r.Success? ==> IsSuffix(r.rest, s)
  {
    var n := SpanLength(s, IsAlpha);
    var colon := Char(':', s[n..]);
    if colon.Failure? then Failure else Success(s[..n], colon.rest)
  }

  /** `line_end_or_eof`: a line break, or the end of the text. */
  function LineEndOrEof(s: string): (r: Option<string>)
    ensures r.Some? <==> s == [] || StartsWith(s, "\n") || StartsWith(s, "\r\n")
  {
    var l := LineEnding(s);
    if l.Some? then l else if s == [] then Some(s) else None
  }

  /** A name of letters then a colon is read as that name. */
  lemma IdentifierRoundTrip(name: string, rest: string)
    requires forall i :: 0 <= i < |name| ==> IsAlpha(name[i])
    ensures Identifier(name + (":" + rest)) == Success(name, rest)
  {
    var s := name + (":" + rest);
    SpanOf(name, ":" + rest, IsAlpha);
    assert s[..|name|] == name;
    assert s[|name|..] == ":" + rest;
    StartsWithAppend(":", rest);
  }

  /** A line whose head is not letters then a colon is not an identifier. */
  lemma IdentifierFails(s: string)
    requires var n := SpanLength(s, IsAlpha); n == |s| || s[n] != ':'
    ensures Identifier(s).Failure?
  {
  }

  // ---------------------------------------------------------------------
  // Part 1: `data_parser`, `time_distance_parser`, `parser_01`.

  /** `data_parser`: the identifier, spaces, the integers, then a line
      break or the end. */
  function DataParser(s: string): Parsed<seq<int>>
  {
    var id := Identifier(s);
    if id.Failure? then Failure
    else
      var nums := IntegerList(Space0(id.rest));
      var end := LineEndOrEof(nums.1);
      if end.None? then Failure else Success(nums.0, end.value)
  }

  /** `time_distance_parser`: two data lines. */
  function TimeDistanceParser(s: string): Parsed<(seq<int>, seq<int>)>
  {
    var times := DataParser(s);
    if times.Failure? then Failure
    else
      var distances := DataParser(times.rest);
      if distances.Failure? then Failure
      else Success((times.value, distances.value), distances.rest)
  }

  /** `zip`: the races column by column, as many as the shorter line has. */
  function Zip(times: seq<int>, distances: seq<int>): (r: seq<TimeDistance>)
    ensures |r| == if |times| < |distances| then |times| else |distances|
    ensures forall i :: 0 <= i < |r| ==> r[i] == TimeDistance(times[i], distances[i])
    decreases |times|
  {
    if times == [] || distances == [] then []
    else [TimeDistance(times[0], distances[0])] + Zip(times[1..], distances[1..])
  }

  /** `parser_01`: the races of the sheet; none when it does not parse. */
  function Parser01(text: string): seq<TimeDistance>
  {
    var r := TimeDistanceParser(text);
    if r.Failure? then [] else Zip(r.value.0, r.value.1)
  }

  /** A data line as written: name, colon, a space, the integers each with
      a space, then what follows. */
  function DataText(name: string, xs: seq<int>, tail: string): string
  {
    name + (":" + (" " + IntegersThen(xs, tail)))
  }

  /** `DataParser` on a text whose parts read as given. */
  lemma DataOn(s: string, name: string, afterName: string, xs: seq<int>, afterXs: string)
    requires Identifier(s) == Success(name, afterName)
    requires IntegerList(Space0(afterName)) == (xs, afterXs)
    ensures DataParser(s) == if LineEndOrEof(afterXs).None? then Failure else Success(xs, LineEndOrEof(afterXs).value)
  {
  }

  /** A written data line is read back; the line break after it, if any,
      is consumed. */
  lemma DataRoundTrip(name: string, xs: seq<int>, rest: string, last: bool)
    requires forall i :: 0 <= i < |name| ==> IsAlpha(name[i])
    requires last ==> rest == []
    ensures DataParser(DataText(name, xs, if last then [] else "\n" + rest)) == Success(xs, rest)
  {
    var tail: string := if last then [] else "\n" + rest;
    var list := IntegersThen(xs, tail);
    IdentifierRoundTrip(name, " " + list);
    IntegersStart(xs, tail);
    SpacesThen(" ", list);
    IntegerListRoundTrip(xs, tail);
    if !last {
      StartsWithAppend("\n", rest);
    }
    DataOn(DataText(name, xs, tail), name, " " + list, xs, tail);
  }

  /** `TimeDistanceParser` on a text whose two lines read as given. */
  lemma TimeDistanceOn(s: string, times: seq<int>, mid: string, distances: seq<int>, rest: string)
    requires DataParser(s) == Success(times, mid)
    requires DataParser(mid) == Success(distances, rest)
    ensures TimeDistanceParser(s) == Success((times, distances), rest)
  {
  }

  /** A written sheet, whatever its two names, is read back as its races,
      paired column by column. */
  lemma SheetRoundTrip(first: string, times: seq<int>, second: string, distances: seq<int>)
    requires forall i :: 0 <= i < |first| ==> IsAlpha(first[i])
    requires forall i :: 0 <= i < |second| ==> IsAlpha(second[i])
    ensures TimeDistanceParser(DataText(first, times, "\n" + DataText(second, distances, "\n"))) ==
      Success((times, distances), [])
  {
    var line := DataText(second, distances, "\n");
    DataRoundTrip(second, distances, [], false);
    assert "\n" + [] == "\n";
    DataRoundTrip(first, times, line, false);
    TimeDistanceOn(DataText(first, times, "\n" + line), times, line, distances, []);
  }

  /** A written sheet is read back as its races, paired column by column. */
  lemma Parser01RoundTrip(times: seq<int>, distances: seq<int>)
    ensures Parser01(DataText("Time", times, "\n" + DataText("Distance", distances, "\n"))) == Zip(times, distances)
  {
    SheetRoundTrip("Time", times, "Distance", distances);
  }

  /** A sheet that does not open with letters and a colon gives no races. */
  lemma Parser01Fails(text: string)
    requires Identifier(text).Failure?
    ensures Parser01(text) == []
  {
  }

  // ---------------------------------------------------------------------
  // Part 2: `string_numbers`, `single_value_parser(_string)`, `parser_02`.

  /** Groups of digits: not empty, digits only. */
  predicate DigitsOnly(groups: seq<string>)
  {
    forall k :: 0 <= k < |groups| ==> groups[k] != [] && forall i :: 0 <= i < |groups[k]| ==> IsDigit(groups[k][i])
  }

  /** `string_numbers`: runs of digits each followed by optional spaces. */
  function DigitGroups(s: string): (r: (seq<string>, string))
    ensures IsSuffix(r.1, s)
    ensures DigitsOnly(r.0)
    decreases |s|
  {
    var n := SpanLength(s, IsDigit);
    if n == 0 then ([], s)
    else
      var more := DigitGroups(Space0(s[n..]));
      SuffixTransitive(Space0(s[n..]), s[n..], s);
      SuffixTransitive(more.1, Space0(s[n..]), s);
      DigitsOnlyCons(s[..n], more.0);
      ([s[..n]] + more.0, more.1)
  }

  /** A run of digits in front of digit groups keeps them digit groups. */
  lemma DigitsOnlyCons(g: string, groups: seq<string>)
    requires g != [] && forall i :: 0 <= i < |g| ==> IsDigit(g[i])
    requires DigitsOnly(groups)
    ensures DigitsOnly([g] + groups)
  {
    var r := [g] + groups;
    assert forall k :: 1 <= k < |r| ==> r[k] == groups[k - 1];
  }

  /** `join("")`. */
  function Concat(groups: seq<string>): string
    decreases |groups|
  {
    if groups == [] then [] else groups[0] + Concat(groups[1..])
  }

  /** Joining digit groups gives digits, and nothing only from no groups. */
  lemma {:induction false} ConcatDigits(groups: seq<string>)
    requires DigitsOnly(groups)
    ensures forall i :: 0 <= i < |Concat(groups)| ==> IsDigit(Concat(groups)[i])
    ensures Concat(groups) == [] <==> groups == []
    decreases |groups|
  {
    if groups != [] {
      assert forall k :: 1 <= k < |groups| ==> groups[1..][k - 1] == groups[k];
      ConcatDigits(groups[1..]);
      var c := Concat(groups);
      forall i | 0 <= i < |c|
        ensures IsDigit(c[i])
      {
        if i >= |groups[0]| {
          assert c[i] == Concat(groups[1..])[i - |groups[0]|];
        }
      }
    }
  }

  /** The number the joined digit groups spell. */
  function JoinedValue(groups: seq<string>): nat
    requires DigitsOnly(groups)
  {
    ConcatDigits(groups);
    DecimalValue(Concat(groups))
  }

  /** `single_value_parser_string`: the identifier, spaces, and the digit
      groups joined. */
  function SingleValueString(s: string): (r: Parsed<string>)
    ensures r.Success? ==> forall i :: 0 <= i < |r.value| ==> IsDigit(r.value[i])
  {
    var id := Identifier(s);
    if id.Failure? then Failure
    else
      var groups := DigitGroups(Space0(id.rest));
      ConcatDigits(groups.0);
      Success(Concat(groups.0), groups.1)
  }

  /** `single_value_parser`: `None` where `parse::<i64>().unwrap()` panics,
      that is when the line parses but holds no digit; `Some(Failure)` when
      the line does not parse. */
  function SingleValue(s: string): Option<Parsed<int>>
  {
    var str := SingleValueString(s);
    if str.Failure? then Some(Failure)
    else
      var end := LineEndOrEof(str.rest);
      if end.None? then Some(Failure)
      else if str.value == [] then None
      else Some(Success(DecimalValue(str.value) as int, end.value))
  }

  /** `time_distance_parser_single`: two single-value lines; `None` where
      one of them panics. */
  function TimeDistanceSingle(s: string): Option<Parsed<(int, int)>>
  {
    var time := SingleValue(s);
    if time.None? then None
    else if time.value.Failure? then Some(Failure)
    else
      var distance := SingleValue(time.value.rest);
      if distance.None? then None
      else if distance.value.Failure? then Some(Failure)
      else Some(Success((time.value.value, distance.value.value), distance.value.rest))
  }

  /** `parser_02`: the race of the sheet, `(0, 0)` when it does not parse;
      `None` where it panics. */
  function Parser02(text: string): Option<TimeDistance>
  {
    var r := TimeDistanceSingle(text);
    if r.None? then None
    else if r.value.Failure? then Some(TimeDistance(0, 0))
    else Some(TimeDistance(r.value.value.0, r.value.value.1))
  }

  /** Digit groups, each followed by one space, then what follows. */
  function GroupsThen(groups: seq<string>, tail: string): string
    decreases |groups|
  {
    if groups == [] then tail else groups[0] + (" " + GroupsThen(groups[1..], tail))
  }

  /** `DigitGroups` on a text whose first group reads as given. */
  lemma DigitGroupsOn(g: string, rest: string, groups: seq<string>, after: string)
    requires g != [] && forall i :: 0 <= i < |g| ==> IsDigit(g[i])
    requires rest == [] || !IsDigit(rest[0])
    requires DigitGroups(Space0(rest)) == (groups, after)
    ensures DigitGroups(g + rest) == ([g] + groups, after)
  {
    SpanOf(g, rest, IsDigit);
    assert (g + rest)[..|g|] == g;
    assert (g + rest)[|g|..] == rest;
  }

  /** Written digit groups start with a digit, or are the tail itself. */
  lemma GroupsStart(groups: seq<string>, tail: string)
    requires DigitsOnly(groups)
    ensures groups != [] ==> GroupsThen(groups, tail) != [] && IsDigit(GroupsThen(groups, tail)[0])
    ensures groups == [] ==> GroupsThen(groups, tail) == tail
  {
    if groups != [] {
      FirstOf(groups[0], " " + GroupsThen(groups[1..], tail));
    }
  }

  /** Written digit groups are read back, in order. */
  lemma {:induction false} DigitGroupsRoundTrip(groups: seq<string>, tail: string)
    requires DigitsOnly(groups)
    requires tail == [] || tail[0] == '\n'
    ensures DigitGroups(GroupsThen(groups, tail)) == (groups, tail)
    decreases |groups|
  {
    if groups == [] {
      assert SpanLength(tail, IsDigit) == 0;
    } else {
      var more := GroupsThen(groups[1..], tail);
      assert DigitsOnly(groups[1..]) by {
        assert forall k :: 0 <= k < |groups[1..]| ==> groups[1..][k] == groups[k + 1];
      }
      GroupsStart(groups[1..], tail);
      SpacesThen(" ", more);
      DigitGroupsRoundTrip(groups[1..], tail);
      DigitGroupsOn(groups[0], " " + more, groups[1..], tail);
      HeadTail(groups);
    }
  }

  /** `SingleValueString` on a text whose parts read as given. */
  lemma SingleStringOn(s: string, afterName: string, groups: seq<string>, afterGroups: string)
    requires Identifier(s).Success? && Identifier(s).rest == afterName
    requires DigitGroups(Space0(afterName)) == (groups, afterGroups)
    ensures SingleValueString(s) == Success(Concat(groups), afterGroups)
  {
  }

  /** A written single-value line reads as its digit groups joined. */
  lemma SingleStringRoundTrip(name: string, groups: seq<string>, tail: string)
    requires forall i :: 0 <= i < |name| ==> IsAlpha(name[i])
    requires DigitsOnly(groups)
    requires tail == [] || tail[0] == '\n'
    ensures SingleValueString(name + (":" + (" " + GroupsThen(groups, tail)))) == Success(Concat(groups), tail)
  {
    var written := GroupsThen(groups, tail);
    IdentifierRoundTrip(name, " " + written);
    GroupsStart(groups, tail);
    SpacesThen(" ", written);
    DigitGroupsRoundTrip(groups, tail);
    SingleStringOn(name + (":" + (" " + written)), " " + written, groups, tail);
  }

  /** `SingleValue` on a text whose joined digits read as given. */
  lemma SingleValueOn(s: string, digits: string, after: string, rest: string)
    requires SingleValueString(s) == Success(digits, after)
    requires LineEndOrEof(after) == Some(rest)
    ensures SingleValue(s) == if digits == [] then None else Some(Success(DecimalValue(digits) as int, rest))
  {
  }

  /** A written single-value line: its digits joined into one number, or a
      panic when it has no digits; the line break after it is consumed. */
  lemma SingleRoundTrip(name: string, groups: seq<string>, rest: string, last: bool)
    requires forall i :: 0 <= i < |name| ==> IsAlpha(name[i])
    requires DigitsOnly(groups)
    requires last ==> rest == []
    ensures var s := name + (":" + (" " + GroupsThen(groups, if last then [] else "\n" + rest)));
      if groups == [] then SingleValue(s) == None
      else SingleValue(s) == Some(Success(JoinedValue(groups) as int, rest))
  {
    var tail: string := if last then [] else "\n" + rest;
    var s := name + (":" + (" " + GroupsThen(groups, tail)));
    SingleStringRoundTrip(name, groups, tail);
    ConcatDigits(groups);
    if !last {
      StartsWithAppend("\n", rest);
    }
    SingleValueOn(s, Concat(groups), tail, rest);
  }

  /** `TimeDistanceSingle` on a text whose two lines read as given. */
  lemma TimeDistanceSingleOn(s: string, time: int, mid: string, distance: int, rest: string)
    requires SingleValue(s) == Some(Success(time, mid))
    requires SingleValue(mid) == Some(Success(distance, rest))
    ensures TimeDistanceSingle(s) == Some(Success((time, distance), rest))
  {
  }

  /** A single-value line as written: name, colon, a space, the digit
      groups each with a space, then what follows. */
  function GroupsText(name: string, groups: seq<string>, tail: string): string
  {
    name + (":" + (" " + GroupsThen(groups, tail)))
  }

  /** A written sheet, whatever its two names, is read back as one race. */
  lemma SingleSheetRoundTrip(first: string, time: seq<string>, second: string, distance: seq<string>)
    requires forall i :: 0 <= i < |first| ==> IsAlpha(first[i])
    requires forall i :: 0 <= i < |second| ==> IsAlpha(second[i])
    requires DigitsOnly(time) && DigitsOnly(distance)
    requires time != [] && distance != []
    ensures TimeDistanceSingle(GroupsText(first, time, "\n" + GroupsText(second, distance, []))) ==
      Some(Success((JoinedValue(time) as int, JoinedValue(distance) as int), []))
  {
    var line := GroupsText(second, distance, []);
    SingleRoundTrip(second, distance, [], true);
    SingleRoundTrip(first, time, line, false);
    TimeDistanceSingleOn(GroupsText(first, time, "\n" + line), JoinedValue(time), line, JoinedValue(distance), []);
  }

  /** A written sheet is read back as one race: the digits of each line
      joined into one number. */
  lemma Parser02RoundTrip(time: seq<string>, distance: seq<string>)
    requires DigitsOnly(time) && DigitsOnly(distance)
    requires time != [] && distance != []
    ensures Parser02(GroupsText("Time", time, "\n" + GroupsText("Distance", distance, []))) ==
      Some(TimeDistance(JoinedValue(time), JoinedValue(distance)))
  {
    SingleSheetRoundTrip("Time", time, "Distance", distance);
  }

  /** A line with a name but no digit makes `parser_02` panic. */
  lemma Parser02Panics(name: string, rest: string)
    requires forall i :: 0 <= i < |name| ==> IsAlpha(name[i])
    ensures Parser02(GroupsText(name, [], "\n" + rest)) == None
  {
    SingleRoundTrip(name, [], rest, false);
  }

  /** A sheet that does not open with letters and a colon is the race
      `(0, 0)`. */
  lemma Parser02Fails(text: string)
    requires Identifier(text).Failure?
    ensures Parser02(text) == Some(TimeDistance(0, 0))
  {
  }

  /** The joined digits of "7  15   30" spell 71530. */
  lemma JoinedExample()
    ensures DigitsOnly(["7", "15", "30"]) && JoinedValue(["7", "15", "30"]) == 71530
  {
    assert Concat(["30"]) == "30";
    assert ["7", "15", "30"][1..] == ["15", "30"];
    assert ["15", "30"][1..] == ["30"];
    assert Concat(["7", "15", "30"]) == "71530";
    assert "71530"[..4] == "7153";
    assert "7153"[..3] == "715";
    assert "715"[..2] == "71";
    assert "71"[..1] == "7";
  }
}
