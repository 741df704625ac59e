/** The almanac grammar of day05/src/main.rs: a "seeds:" line of integers,
    then sections, each a "<name> map:" line followed by lines of three
    integers (destination start, source start, length). */
module Day05Grammar {

  import opened Parsing
  import opened Day05

  /** `seeds_parser`: "seeds", `:`, optional spaces, the seed numbers. */
  function SeedsParser(s: string): (r: Parsed<seq<int>>)
  {
    var t := Tag("seeds", s);
    if t.None? then Failure
    else
      var colon := Char(':', t.value);
      if colon.Failure? then Failure
      else
        var nums := IntegerList(Space0(colon.rest));
        Success(nums.0, nums.1)
  }

  /** `map_end`: optional spaces, "map:", optional spaces. */
  function MapEnd(s: string): Option<string>
  {
    var t := Tag("map:", Space0(s));
    if t.None? then None else Some(Space0(t.value))
  }

  predicate NotWhitespace(c: char) { !IsWhitespace(c) }

  /** `name_parser` (`take_till1(char::is_whitespace)`): one or more
      characters up to the first blank. */
  function NameParser(s: string): (r: Parsed<string>)
    ensures Progresses(r, s)
  {
    var n := SpanLength(s, NotWhitespace);
    if n == 0 then Failure else Success(s[..n], s[n..])
  }

  /** `map_name`: the name, optional spaces and the map end. */
  function MapName(s: string): (r: Option<string>)
    ensures r.Some? ==> IsSuffix(r.value, s) && |r.value| < |s|
  {
    var name := NameParser(s);
    if name.Failure? then None
    else
      var after := Space0(name.rest);
      var end := MapEnd(after);
      if end.None? then None
      else
        var t := Tag("map:", Space0(after));
        SuffixTransitive(after, name.rest, s);
        SuffixTransitive(Space0(after), after, s);
        SuffixTransitive(t.value, Space0(after), s);
        SuffixTransitive(end.value, t.value, s);
        end
  }

  /** `map_numbers`: three integers separated by optional spaces, then
      optional blanks and line breaks, made into a `MapValue`. */
  function MapNumbers(s: string): (r: Parsed<MapValue>)
    ensures Progresses(r, s)
  {
    var one := Signed(s);
    if one.Failure? then Failure
    else
      var two := Signed(Space0(one.rest));
      if two.Failure? then Failure
      else
        var three := Signed(Space0(two.rest));
        if three.Failure? then Failure
        else
          SuffixTransitive(Space0(one.rest), one.rest, s);
          SuffixTransitive(two.rest, Space0(one.rest), s);
          SuffixTransitive(Space0(two.rest), two.rest, s);
          SuffixTransitive(three.rest, Space0(two.rest), s);
          SuffixTransitive(Multispace0(three.rest), three.rest, s);
          Success(NewMapValue(one.value, two.value, three.value), Multispace0(three.rest))
  }

  /** `many0(map_numbers)`. */
  function MapNumbersList(s: string): (r: (seq<MapValue>, string))
    ensures IsSuffix(r.1, s)
    decreases |s|
  {
    var m := MapNumbers(s);
    if m.Failure? then ([], s)
    else
      var more := MapNumbersList(m.rest);
      SuffixTransitive(more.1, m.rest, s);
      ([m.value] + more.0, more.1)
  }

  /** `map_names_and_numbers`: the name line, blanks, and the maps. */
  function Section(s: string): (r: Parsed<seq<MapValue>>)
    ensures Progresses(r, s)
  {
    var name := MapName(s);
    if name.None? then Failure
    else
      var maps := MapNumbersList(Multispace0(name.value));
      SuffixTransitive(Multispace0(name.value), name.value, s);
      SuffixTransitive(maps.1, Multispace0(name.value), s);
      Success(maps.0, maps.1)
  }

  /** `many0(section_parser)`: sections, each followed by blanks. */
  function Sections(s: string): (r: (seq<seq<MapValue>>, string))
    decreases |s|
  {
    var sec := Section(s);
    if sec.Failure? then ([], s)
    else
      var more := Sections(Multispace0(sec.rest));
      ([sec.value] + more.0, more.1)
  }

  /** `soil_data`: the seeds, blanks, and the sections. */
  function SoilDataParser(s: string): Parsed<SoilData>
  {
    var seeds := SeedsParser(s);
    if seeds.Failure? then Failure
    else
      var sections := Sections(Multispace0(seeds.rest));
      Success(SoilData(seeds.value, sections.0), sections.1)
  }

  /** `parser`: the almanac, whatever follows it; `None` for the parse
      error. */
  function Parser(text: string): Option<SoilData>
  {
    var r := SoilDataParser(text);
    if r.Failure? then None else Some(r.value)
  }

  /** Only the seeds line can make the parse fail: the rest is read with
      `many0` and `multispace0`, which never fail. */
  lemma ParserFails(text: string)
    ensures Parser(text).None? <==> !StartsWith(text, "seeds:")
  {
    if StartsWith(text, "seeds") && |text| > 5 && text[5] == ':' {
      assert text[..6] == "seeds:";
    }
    if StartsWith(text, "seeds:") {
      assert text[..5] == "seeds";
    }
  }

  // ---------------------------------------------------------------------
  // Writing an almanac back as text.

  /** A map line as written in the almanac: destination start, source
      start and length. */
  datatype Triple = Triple(destination: int, source: int, length: int)

  /** A section as written: its name and its map lines. */
  datatype Named = Named(name: string, triples: seq<Triple>)

  /** A name the section grammar reads back: not empty, no blanks, and a
      letter first, so it cannot be read as a number. */
  predicate ValidName(name: string)
  {
    name != [] && IsAlpha(name[0]) && forall i :: 0 <= i < |name| ==> NotWhitespace(name[i])
  }

  /** The maps of written map lines, by `MapValue::new`. */
  function ToMaps(ts: seq<Triple>): (r: seq<MapValue>)
    ensures |r| == |ts|
    decreases |ts|
  {
    if ts == [] then [] else [NewMapValue(ts[0].destination, ts[0].source, ts[0].length)] + ToMaps(ts[1..])
  }

  function MapsOf(secs: seq<Named>): (r: seq<seq<MapValue>>)
    ensures |r| == |secs|
    decreases |secs|
  {
    if secs == [] then [] else [ToMaps(secs[0].triples)] + MapsOf(secs[1..])
  }

  /** One map line, then `tail`. */
  function TripleThen(t: Triple, tail: string): string
  {
    SignedDecimal(t.destination) + (" " + (SignedDecimal(t.source) + (" " + (SignedDecimal(t.length) + ("\n" + tail)))))
  }

  function TriplesThen(ts: seq<Triple>, tail: string): string
    decreases |ts|
  {
    if ts == [] then tail else TripleThen(ts[0], TriplesThen(ts[1..], tail))
  }

  /** A section: its name line, its map lines and a blank line. */
  function SectionThen(sec: Named, tail: string): string
  {
    sec.name + (" map:\n" + TriplesThen(sec.triples, "\n" + tail))
  }

  function SectionsThen(secs: seq<Named>, tail: string): string
    decreases |secs|
  {
    if secs == [] then tail else SectionThen(secs[0], SectionsThen(secs[1..], tail))
  }

  /** An almanac: the seeds line, a blank line, and the sections. */
  function AlmanacText(seeds: seq<int>, secs: seq<Named>): string
  {
    "seeds" + (":" + (" " + IntegersThen(seeds, "\n" + ("\n" + SectionsThen(secs, "")))))
  }

  /** `SeedsParser` on a text whose parts read as given. */
  lemma SeedsOn(s: string, afterTag: string, afterColon: string, seeds: seq<int>, rest: string)
    requires Tag("seeds", s) == Some(afterTag)
    requires Char(':', afterTag) == Success(':', afterColon)
    requires IntegerList(Space0(afterColon)) == (seeds, rest)
    ensures SeedsParser(s) == Success(seeds, rest)
  {
  }

  /** The seeds line of a written almanac. */
  lemma SeedsRoundTrip(seeds: seq<int>, tail: string)
    requires tail != [] && tail[0] == '\n'
    ensures SeedsParser("seeds" + (":" + (" " + IntegersThen(seeds, tail)))) == Success(seeds, tail)
  {
    var list := IntegersThen(seeds, tail);
    StartsWithAppend("seeds", ":" + (" " + list));
    StartsWithAppend(":", " " + list);
    IntegersStart(seeds, tail);
    SpacesThen(" ", list);
    IntegerListRoundTrip(seeds, tail);
    SeedsOn("seeds" + (":" + (" " + list)), ":" + (" " + list), " " + list, seeds, tail);
  }

  /** The three integers of a written map line. */
  lemma TripleRoundTrip(t: Triple, tail: string)
    ensures MapNumbers(TripleThen(t, tail)) ==
      Success(NewMapValue(t.destination, t.source, t.length), Multispace0("\n" + tail))
  {
    var afterLength := "\n" + tail;
    var afterSource := " " + (SignedDecimal(t.length) + afterLength);
    var afterDestination := " " + (SignedDecimal(t.source) + afterSource);
    SignedStart(t.length, afterLength);
    SignedStart(t.source, afterSource);
    SignedSpace(t.destination, SignedDecimal(t.source) + afterSource);
    SignedSpace(t.source, SignedDecimal(t.length) + afterLength);
    SignedRoundTrip(t.length, afterLength);
    MapNumbersOn(TripleThen(t, tail), t.destination, afterDestination, t.source, afterSource, t.length, afterLength);
  }

  /** `MapNumbers` on a text whose three integers read as given. */
  lemma MapNumbersOn(s: string, a: int, afterA: string, b: int, afterB: string, c: int, afterC: string)
    requires Signed(s) == Success(a, afterA)
    requires Signed(Space0(afterA)) == Success(b, afterB)
    requires Signed(Space0(afterB)) == Success(c, afterC)
    ensures MapNumbers(s) == Success(NewMapValue(a, b, c), Multispace0(afterC))
  {
  }

  /** `MapNumbersList` on a text whose first map line reads as given. */
  lemma MapNumbersListOn(s: string, m: MapValue, afterM: string, maps: seq<MapValue>, rest: string)
    requires MapNumbers(s) == Success(m, afterM)
    requires MapNumbersList(afterM) == (maps, rest)
    ensures MapNumbersList(s) == ([m] + maps, rest)
  {
  }

  /** Nothing that opens with a letter, nor the end, reads as a map line. */
  lemma NoMapNumbers(more: string)
    requires more == [] || IsAlpha(more[0])
    ensures MapNumbersList(more) == ([], more)
  {
    assert Signed(more).Failure?;
    assert MapNumbers(more).Failure?;
  }

  /** The blank line that closes a section, before the next one. */
  lemma TwoNewlines(more: string)
    requires more == [] || IsAlpha(more[0])
    ensures Multispace0("\n" + ("\n" + more)) == more
  {
    AppendAssoc("\n", "\n", more);
    assert "\n" + "\n" == "\n\n";
    MultispacesThen("\n\n", more);
  }

  /** A written map line then what follows: the blanks after it are
      dropped up to the next map line. */
  lemma NextTriple(t: Triple, tail: string)
    ensures Multispace0("\n" + TripleThen(t, tail)) == TripleThen(t, tail)
  {
    SignedStart(t.destination, " " + (SignedDecimal(t.source) + (" " + (SignedDecimal(t.length) + ("\n" + tail)))));
    MultispacesThen("\n", TripleThen(t, tail));
  }

  /** The map lines of a written section are read back, and so is the
      blank line after them. */
  lemma {:induction false} TriplesRoundTrip(ts: seq<Triple>, more: string)
    requires ts != []
    requires more == [] || IsAlpha(more[0])
    ensures MapNumbersList(TriplesThen(ts, "\n" + more)) == (ToMaps(ts), more)
    decreases |ts|
  {
    var rest := TriplesThen(ts[1..], "\n" + more);
    TripleRoundTrip(ts[0], rest);
    if ts[1..] != [] {
      NextTriple(ts[1..][0], TriplesThen(ts[1..][1..], "\n" + more));
      TriplesRoundTrip(ts[1..], more);
    } else {
      TwoNewlines(more);
      NoMapNumbers(more);
    }
    MapNumbersListOn(TriplesThen(ts, "\n" + more), NewMapValue(ts[0].destination, ts[0].source, ts[0].length),
                     Multispace0("\n" + rest), ToMaps(ts[1..]), more);
  }

  /** The name of a written section. */
  lemma NameRoundTrip(name: string, rest: string)
    requires ValidName(name)
    requires rest != [] && rest[0] == ' '
    ensures NameParser(name + rest) == Success(name, rest)
  {
    SpanOf(name, rest, NotWhitespace);
    assert (name + rest)[..|name|] == name;
    assert (name + rest)[|name|..] == rest;
  }

  /** The " map:" after a section name. */
  lemma MapEndRoundTrip(body: string)
    ensures Space0(" " + ("map:" + ("\n" + body))) == "map:" + ("\n" + body)
    ensures MapEnd("map:" + ("\n" + body)) == Some("\n" + body)
  {
    SpacesThen(" ", "map:" + ("\n" + body));
    NoSpaces("map:" + ("\n" + body));
    StartsWithAppend("map:", "\n" + body);
    NoSpaces("\n" + body);
  }

  /** The name line of a written section. */
  lemma MapNameRoundTrip(name: string, body: string)
    requires ValidName(name)
    ensures MapName(name + (" map:\n" + body)) == Some("\n" + body)
  {
    assert " map:\n" + body == " " + ("map:" + ("\n" + body));
    NameRoundTrip(name, " map:\n" + body);
    MapEndRoundTrip(body);
  }

  /** `Section` on a text whose name line and maps read as given. */
  lemma SectionOn(s: string, afterName: string, maps: seq<MapValue>, rest: string)
    requires MapName(s) == Some(afterName)
    requires MapNumbersList(Multispace0(afterName)) == (maps, rest)
    ensures Section(s) == Success(maps, rest)
  {
  }

  /** A written section is read back as its maps. */
  lemma SectionRoundTrip(sec: Named, more: string)
    requires ValidName(sec.name)
    requires more == [] || IsAlpha(more[0])
    ensures Section(SectionThen(sec, more)) == Success(ToMaps(sec.triples), more)
  {
    var body := TriplesThen(sec.triples, "\n" + more);
    MapNameRoundTrip(sec.name, body);
    if sec.triples == [] {
      TwoNewlines(more);
      NoMapNumbers(more);
    } else {
      NextTriple(sec.triples[0], TriplesThen(sec.triples[1..], "\n" + more));
      TriplesRoundTrip(sec.triples, more);
    }
    SectionOn(SectionThen(sec, more), "\n" + body, ToMaps(sec.triples), more);
  }

  /** `Sections` on a text whose first section reads as given. */
  lemma SectionsOn(s: string, maps: seq<MapValue>, afterSection: string, more: seq<seq<MapValue>>, rest: string)
    requires Section(s) == Success(maps, afterSection)
    requires Sections(Multispace0(afterSection)) == (more, rest)
    ensures Sections(s) == ([maps] + more, rest)
  {
  }

  /** The end of the text holds no section. */
  lemma NoSections()
    ensures Sections("") == ([], "")
  {
  }

  /** A written section list opens with the first name, or is empty. */
  lemma SectionsStart(secs: seq<Named>)
    requires forall k :: 0 <= k < |secs| ==> ValidName(secs[k].name)
    ensures SectionsThen(secs, "") == [] || IsAlpha(SectionsThen(secs, "")[0])
  {
    if secs != [] {
      FirstOf(secs[0].name, " map:\n" + TriplesThen(secs[0].triples, "\n" + SectionsThen(secs[1..], "")));
    }
  }

  /** Written sections are read back, in order. */
  lemma {:induction false} SectionsRoundTrip(secs: seq<Named>)
    requires forall k :: 0 <= k < |secs| ==> ValidName(secs[k].name)
    ensures Sections(SectionsThen(secs, "")) == (MapsOf(secs), "")
    decreases |secs|
  {
    if secs == [] {
      NoSections();
    } else {
      var more := SectionsThen(secs[1..], "");
      SectionsStart(secs[1..]);
      SectionRoundTrip(secs[0], more);
      MultispaceNone(more);
      SectionsRoundTrip(secs[1..]);
      SectionsOn(SectionsThen(secs, ""), ToMaps(secs[0].triples), more, MapsOf(secs[1..]), "");
    }
  }

  /** `Parser` on a text whose seeds and sections read as given. */
  lemma ParserOn(s: string, seeds: seq<int>, afterSeeds: string, maps: seq<seq<MapValue>>, rest: string)
    requires SeedsParser(s) == Success(seeds, afterSeeds)
    requires Sections(Multispace0(afterSeeds)) == (maps, rest)
    ensures Parser(s) == Some(SoilData(seeds, maps))
  {
  }

  /** A written almanac is read back: its seeds, and the maps `new` makes
      of its map lines, section by section. */
  lemma AlmanacRoundTrip(seeds: seq<int>, secs: seq<Named>)
    requires forall k :: 0 <= k < |secs| ==> ValidName(secs[k].name)
    ensures Parser(AlmanacText(seeds, secs)) == Some(SoilData(seeds, MapsOf(secs)))
  {
    var sections := SectionsThen(secs, "");
    SeedsRoundTrip(seeds, "\n" + ("\n" + sections));
    SectionsStart(secs);
    TwoNewlines(sections);
    SectionsRoundTrip(secs);
    ParserOn(AlmanacText(seeds, secs), seeds, "\n" + ("\n" + sections), MapsOf(secs), "");
  }
}
