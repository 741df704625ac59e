/** Day 5 (day05/src/main.rs): the almanac. Each section of the almanac is a
    list of range maps; a seed is sent through the sections in order, and
    within a section the first map whose source range holds the value moves
    it by the offset to its destination range. */
module Day05 {

  import opened Parsing

  /** `Range<i64>`: the half-open interval `[start, end)`. */
  datatype Range = Range(start: int, end: int)

  /** `Range::contains`. */
  predicate Contains(r: Range, v: int)
  {
    r.start <= v < r.end
  }

  /** `MapValue`: a destination range and a source range. */
  datatype MapValue = MapValue(destination: Range, source: Range)

  /** `SoilData`: the seeds, and the sections of maps in almanac order. */
  datatype SoilData = SoilData(seeds: seq<int>, maps: seq<seq<MapValue>>)

  // ---------------------------------------------------------------------
  // `MapValue::new` and `MapValue::mapped_value`.

  /** `MapValue::new`: two ranges of the same length. */
  function NewMapValue(destination: int, source: int, length: int): (m: MapValue)
    ensures m.source.end - m.source.start == m.destination.end - m.destination.start
  {
    MapValue(Range(destination, destination + length), Range(source, source + length))
  }

  /** `mapped_value`: a value in the source range is moved to the same
      offset in the destination range (the `abs` of a non-negative offset). */
  function MappedValue(m: MapValue, v: int): (r: Option<int>)
    ensures r.Some? <==> Contains(m.source, v)
  {
    if Contains(m.source, v) then Some(m.destination.start + Abs(v - m.source.start)) else None
  }

  /** A map made by `new` moves exactly the values of `[source, source +
      length)`, each by `destination - source`, into the destination range. */
  lemma NewMapValueMeaning(destination: int, source: int, length: int, v: int)
    ensures MappedValue(NewMapValue(destination, source, length), v) ==
      if source <= v < source + length then Some(destination + (v - source)) else None
    ensures MappedValue(NewMapValue(destination, source, length), v).Some? ==>
      Contains(NewMapValue(destination, source, length).destination,
               MappedValue(NewMapValue(destination, source, length), v).value)
  {
  }

  // ---------------------------------------------------------------------
  // `SoilData::map_seed`.

  /** `section.iter().filter_map(|m| m.mapped_value(value)).next()`: the
      value moved by the first map of the section that holds it. */
  function FirstMatch(section: seq<MapValue>, v: int): Option<int>
    decreases |section|
  {
    if section == [] then None
    else
      var r := MappedValue(section[0], v);
      if r.Some? then r else FirstMatch(section[1..], v)
  }

  /** No map of the section holds the value exactly when it is left
      alone; otherwise the first map that holds it moves it. */
  lemma {:induction false} FirstMatchMeaning(section: seq<MapValue>, v: int)
    ensures FirstMatch(section, v).None? <==> forall i :: 0 <= i < |section| ==> !Contains(section[i].source, v)
    ensures FirstMatch(section, v).Some? ==>
      exists i :: 0 <= i < |section| && Contains(section[i].source, v) &&
        (forall j :: 0 <= j < i ==> !Contains(section[j].source, v)) &&
        FirstMatch(section, v) == MappedValue(section[i], v)
    decreases |section|
  {
    if section != [] {
      FirstMatchMeaning(section[1..], v);
      if !Contains(section[0].source, v) && FirstMatch(section, v).Some? {
        var i :| 0 <= i < |section[1..]| && Contains(section[1..][i].source, v) &&
          (forall j :: 0 <= j < i ==> !Contains(section[1..][j].source, v)) &&
          FirstMatch(section[1..], v) == MappedValue(section[1..][i], v);
        assert Contains(section[i + 1].source, v);
        assert forall j :: 1 <= j < i + 1 ==> section[j] == section[1..][j - 1];
      }
      if !Contains(section[0].source, v) && FirstMatch(section, v).None? {
        assert forall i :: 1 <= i < |section| ==> section[i] == section[1..][i - 1];
      }
    }
  }

  /** One section: the moved value, or the value itself. */
  function Step(section: seq<MapValue>, v: int): int
  {
    var r := FirstMatch(section, v);
    if r.Some? then r.value else v
  }

  /** The value after every section, first to last. */
  function Apply(maps: seq<seq<MapValue>>, v: int): int
    decreases |maps|
  {
    if maps == [] then v else Apply(maps[1..], Step(maps[0], v))
  }

  /** Sending a value through two blocks of sections sends it through the
      first block, then through the second. */
  lemma {:induction false} ApplyAppend(a: seq<seq<MapValue>>, b: seq<seq<MapValue>>, v: int)
    ensures Apply(a + b, v) == Apply(b, Apply(a, v))
    decreases |a|
  {
    if a == [] {
      assert a + b == b;
    } else {
      assert (a + b)[0] == a[0];
      assert (a + b)[1..] == a[1..] + b;
      ApplyAppend(a[1..], b, Step(a[0], v));
    }
  }

  /** A value that no map of any section holds comes out unchanged. */
  lemma {:induction false} ApplyUnmatched(maps: seq<seq<MapValue>>, v: int)
    requires forall k, i :: 0 <= k < |maps| && 0 <= i < |maps[k]| ==> !Contains(maps[k][i].source, v)
    ensures Apply(maps, v) == v
    decreases |maps|
  {
    if maps != [] {
      FirstMatchMeaning(maps[0], v);
      assert forall k :: 1 <= k < |maps| ==> maps[1..][k - 1] == maps[k];
      ApplyUnmatched(maps[1..], v);
    }
  }

  /** `map_seed`: the value is reassigned section by section. */
  method MapSeed(data: SoilData, seed: int) returns (value: int)
    ensures value == Apply(data.maps, seed)
  {
    value := seed;
    for k := 0 to |data.maps|
      invariant Apply(data.maps[k..], value) == Apply(data.maps, seed)
    {
      assert data.maps[k..][1..] == data.maps[k + 1..];
      var res := FirstMatch(data.maps[k], value);
      if res.Some? {
        value := res.value;
      }
    }
  }

  /** The location of a seed. */
  function Locate(data: SoilData, seed: int): int
  {
    Apply(data.maps, seed)
  }

  // ---------------------------------------------------------------------
  // The minimum locations.

  /** `location_from_slice`: the least location of the seeds; `None` where
      `min().unwrap()` panics on no seeds. */
  function LocationFromSlice(data: SoilData, seeds: seq<int>): (r: Option<int>)
    ensures r.Some? <==> seeds != []
    ensures r.Some? ==> (exists i :: 0 <= i < |seeds| && r.value == Locate(data, seeds[i])) &&
                        forall i :: 0 <= i < |seeds| ==> r.value <= Locate(data, seeds[i])
    decreases |seeds|
  {
    if seeds == [] then None
    else
      var here := Locate(data, seeds[0]);
      var rest := LocationFromSlice(data, seeds[1..]);
      assert forall i :: 1 <= i < |seeds| ==> seeds[i] == seeds[1..][i - 1];
      if rest.None? || here <= rest.value then Some(here) else rest
  }

  /** `location_from_range`: the least location of the seeds of
      `[start, end)`; `None` on an empty range. */
  function LocationFromRange(data: SoilData, start: int, end: int): (r: Option<int>)
    ensures r.Some? <==> start < end
    ensures r.Some? ==> (exists v :: start <= v < end && r.value == Locate(data, v)) &&
                        forall v :: start <= v < end ==> r.value <= Locate(data, v)
    decreases end - start
  {
    if start >= end then None
    else
      var here := Locate(data, start);
      var rest := LocationFromRange(data, start + 1, end);
      if rest.None? || here <= rest.value then Some(here) else rest
  }

  /** `part01`: the least location of the seeds. */
  function Part01(data: SoilData): Option<int>
  {
    LocationFromSlice(data, data.seeds)
  }

  // ---------------------------------------------------------------------
  // `SoilData::seed_ranges` and `part02`.

  /** `seed_ranges`: consecutive seeds taken two at a time from the
      iterator, as a start and a length; a trailing odd seed is left. */
  method SeedRanges(data: SoilData) returns (ranges: seq<Range>)
    ensures PairsOf(data.seeds, ranges)
  {
    var len := |data.seeds| / 2;
    var next := 0;
    ranges := [];
    for i := 0 to len
      invariant next == 2 * i && |ranges| == i
      invariant forall j :: 0 <= j < i ==>
        ranges[j] == Range(data.seeds[2 * j], data.seeds[2 * j] + data.seeds[2 * j + 1])
    {
      var start := data.seeds[next];
      next := next + 1;
      var length := data.seeds[next];
      next := next + 1;
      ranges := ranges + [Range(start, start + length)];
    }
  }

  /** The least location over several ranges; `None` when there are no
      ranges or one of them is empty, where `unwrap` panics. */
  function RangesLocation(data: SoilData, ranges: seq<Range>): (r: Option<int>)
    ensures r.Some? <==> ranges != [] && forall i :: 0 <= i < |ranges| ==> ranges[i].start < ranges[i].end
    decreases |ranges|
  {
    if ranges == [] then None
    else
      var here := LocationFromRange(data, ranges[0].start, ranges[0].end);
      assert forall i :: 1 <= i < |ranges| ==> ranges[i] == ranges[1..][i - 1];
      if here.None? then None
      else if |ranges| == 1 then here
      else
        var rest := RangesLocation(data, ranges[1..]);
        if rest.None? then None
        else if here.value <= rest.value then here else rest
  }

  /** When it is there, the least location over the ranges is the location
      of a seed of one of them, and no seed of any of them has a smaller
      one. */
  lemma RangesLocationLeast(data: SoilData, ranges: seq<Range>)
    requires RangesLocation(data, ranges).Some?
    ensures var r := RangesLocation(data, ranges).value;
      (exists i, v :: 0 <= i < |ranges| && Contains(ranges[i], v) && r == Locate(data, v)) &&
      forall i, v :: 0 <= i < |ranges| && Contains(ranges[i], v) ==> r <= Locate(data, v)
  {
    RangesLocationWitness(data, ranges);
    RangesLocationBound(data, ranges);
  }

  lemma {:induction false} RangesLocationWitness(data: SoilData, ranges: seq<Range>)
    requires RangesLocation(data, ranges).Some?
    ensures exists i, v :: 0 <= i < |ranges| && Contains(ranges[i], v) && RangesLocation(data, ranges).value == Locate(data, v)
    decreases |ranges|
  {
    var here := LocationFromRange(data, ranges[0].start, ranges[0].end);
    if |ranges| == 1 || here.value <= RangesLocation(data, ranges[1..]).value {
      var v :| ranges[0].start <= v < ranges[0].end && here.value == Locate(data, v);
      assert Contains(ranges[0], v);
    } else {
      var tail := ranges[1..];
      RangesLocationWitness(data, tail);
      var i, v :| 0 <= i < |tail| && Contains(tail[i], v) && RangesLocation(data, tail).value == Locate(data, v);
      assert ranges[i + 1] == tail[i];
    }
  }

  lemma {:induction false} RangesLocationBound(data: SoilData, ranges: seq<Range>)
    requires RangesLocation(data, ranges).Some?
    ensures forall i, v :: 0 <= i < |ranges| && Contains(ranges[i], v) ==> RangesLocation(data, ranges).value <= Locate(data, v)
    decreases |ranges|
  {
    if |ranges| > 1 {
      var tail := ranges[1..];
      RangesLocationBound(data, tail);
      forall i, v | 0 <= i < |ranges| && Contains(ranges[i], v)
        ensures RangesLocation(data, ranges).value <= Locate(data, v)
      {
        if i > 0 {
          assert ranges[i] == tail[i - 1];
        }
      }
    }
  }

  /** `v` is a seed of one of the seed ranges. */
  ghost predicate InSeedRange(seeds: seq<int>, v: int)
  {
    exists i :: 0 <= i < |seeds| / 2 && seeds[2 * i] <= v < seeds[2 * i] + seeds[2 * i + 1]
  }

  /** `part02`: the least location of every seed of the seed ranges; `None`
      when there is no range or a range is empty, where `unwrap` panics. */
  method Part02(data: SoilData) returns (location: Option<int>)
    ensures location.Some? <==> |data.seeds| >= 2 && forall i :: 0 <= i < |data.seeds| / 2 ==> data.seeds[2 * i + 1] > 0
    ensures location.Some? ==>
      (exists v :: InSeedRange(data.seeds, v) && location.value == Locate(data, v)) &&
      forall v :: InSeedRange(data.seeds, v) ==> location.value <= Locate(data, v)
  {
    var ranges := SeedRanges(data);
    location := RangesLocation(data, ranges);
    RangesPanic(data, ranges);
    if location.Some? {
      RangesLeast(data, ranges);
    }
  }

  /** The ranges `SeedRanges` builds from the seeds. */
  predicate PairsOf(seeds: seq<int>, ranges: seq<Range>)
  {
    |ranges| == |seeds| / 2 &&
    forall i :: 0 <= i < |ranges| ==> ranges[i] == Range(seeds[2 * i], seeds[2 * i] + seeds[2 * i + 1])
  }

  lemma RangesPanic(data: SoilData, ranges: seq<Range>)
    requires PairsOf(data.seeds, ranges)
    ensures RangesLocation(data, ranges).Some? <==>
      |data.seeds| >= 2 && forall i :: 0 <= i < |data.seeds| / 2 ==> data.seeds[2 * i + 1] > 0
  {
    var n := |data.seeds|;
    assert ranges != [] <==> n >= 2;
    if forall i :: 0 <= i < n / 2 ==> data.seeds[2 * i + 1] > 0 {
      forall i | 0 <= i < |ranges|
        ensures ranges[i].start < ranges[i].end
      {
        assert data.seeds[2 * i + 1] > 0;
      }
    }
    if forall i :: 0 <= i < |ranges| ==> ranges[i].start < ranges[i].end {
      forall i | 0 <= i < n / 2
        ensures data.seeds[2 * i + 1] > 0
      {
        assert ranges[i].start < ranges[i].end;
      }
    }
  }

  lemma RangesLeast(data: SoilData, ranges: seq<Range>)
    requires PairsOf(data.seeds, ranges) && RangesLocation(data, ranges).Some?
    ensures var location := RangesLocation(data, ranges).value;
      (exists v :: InSeedRange(data.seeds, v) && location == Locate(data, v)) &&
      forall v :: InSeedRange(data.seeds, v) ==> location <= Locate(data, v)
  {
    var location := RangesLocation(data, ranges).value;
    RangesLocationLeast(data, ranges);
    var i, v :| 0 <= i < |ranges| && Contains(ranges[i], v) && location == Locate(data, v);
    assert InSeedRange(data.seeds, v);
    forall v | InSeedRange(data.seeds, v)
      ensures location <= Locate(data, v)
    {
      var i :| 0 <= i < |data.seeds| / 2 && data.seeds[2 * i] <= v < data.seeds[2 * i] + data.seeds[2 * i + 1];
      assert Contains(ranges[i], v);
    }
  }
}
