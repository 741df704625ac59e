/** The two answers of day03/src/main.rs. Part 1 walks the cells around
    every symbol in order and adds the value of each number the first time
    its id is met. Part 2 does the same walk around each `*` symbol on its
    own and, when exactly two distinct numbers touch it, adds their
    product. */
module Day03Sums {

  import opened Parsing
  import opened Day03
  import opened Day03Parts

  /** The stored numbers found at `cells`, in order: the `filter_map` over
      `values.get(&coords)`. */
  function LookUp(cells: seq<(int, int)>, values: map<(int, int), Stored>): seq<Stored>
    decreases |cells|
  {
    if cells == [] then []
    else
      var last := cells[|cells| - 1];
      LookUp(cells[..|cells| - 1], values) + (if last in values then [values[last]] else [])
  }

  /** Every stored number met around the symbols, symbol after symbol: the
      `flat_map` over `adjacent_cells`. */
  function Hits(symbols: seq<Symbol>, values: map<(int, int), Stored>): seq<Stored>
    decreases |symbols|
  {
    if symbols == [] then []
    else
      var last := symbols[|symbols| - 1];
      Hits(symbols[..|symbols| - 1], values) + LookUp(Neighbours(last.x, last.y), values)
  }

  /** The ids of a sequence of stored numbers. */
  function Ids(d: seq<Stored>): set<(int, int)>
  {
    set j | 0 <= j < |d| :: d[j].id
  }

  /** The first entry for each id, in order: what the `seen_values` test
      lets through. */
  function Dedup(h: seq<Stored>): seq<Stored>
    decreases |h|
  {
    if h == [] then []
    else
      var d := Dedup(h[..|h| - 1]);
      var last := h[|h| - 1];
      if last.id in Ids(d) then d else d + [last]
  }

  function ValueOf(s: Stored): int { s.value }

  // ---------------------------------------------------------------------
  // One step of each definition.

  lemma LookUpStep(cells: seq<(int, int)>, values: map<(int, int), Stored>, j: nat)
    requires j < |cells|
    ensures LookUp(cells[..j + 1], values) ==
      LookUp(cells[..j], values) + (if cells[j] in values then [values[cells[j]]] else [])
  {
    assert cells[..j + 1][..j] == cells[..j];
  }

  lemma HitsStep(symbols: seq<Symbol>, values: map<(int, int), Stored>, i: nat)
    requires i < |symbols|
    ensures Hits(symbols[..i + 1], values) ==
      Hits(symbols[..i], values) + LookUp(Neighbours(symbols[i].x, symbols[i].y), values)
  {
    assert symbols[..i + 1][..i] == symbols[..i];
  }

  lemma DedupStep(h: seq<Stored>, s: Stored)
    ensures Dedup(h + [s]) == if s.id in Ids(Dedup(h)) then Dedup(h) else Dedup(h) + [s]
  {
    assert (h + [s])[..|h|] == h;
  }

  lemma IdsStep(d: seq<Stored>, s: Stored)
    ensures Ids(d + [s]) == Ids(d) + {s.id}
  {
    assert (d + [s])[|d|] == s;
    forall k | k in Ids(d)
      ensures k in Ids(d + [s])
    {
      var j :| 0 <= j < |d| && d[j].id == k;
      assert (d + [s])[j] == d[j];
    }
  }

  /** One more entry: a new id is added to the ids kept and its value to
      their sum; an id seen before changes neither. */
  lemma FirstSeen(front: seq<Stored>, s: Stored)
    ensures Ids(Dedup(front + [s])) == Ids(Dedup(front)) + {s.id}
    ensures SumOf(Dedup(front + [s]), ValueOf) ==
      SumOf(Dedup(front), ValueOf) + (if s.id in Ids(Dedup(front)) then 0 else s.value)
  {
    DedupStep(front, s);
    IdsStep(Dedup(front), s);
    SumOfAppend(Dedup(front), [s], ValueOf);
  }

  // ---------------------------------------------------------------------
  // Part 1.

  /** `part01`: one `seen_values` set across all symbols; a number found
      around a symbol adds its value unless its id was seen before. */
  method Part01(data: Schematic) returns (sum: int)
    ensures sum == SumOf(Dedup(Hits(data.symbols, data.values)), ValueOf)
  {
    var symbols, values := data.symbols, data.values;
    var seen: set<(int, int)> := {};
    sum := 0;
    for i := 0 to |symbols|
      invariant seen == Ids(Dedup(Hits(symbols[..i], values)))
      invariant sum == SumOf(Dedup(Hits(symbols[..i], values)), ValueOf)
    {
      var symbol := symbols[i];
      var positions := AdjacentCells(symbol.x, symbol.y);
      ghost var before := Hits(symbols[..i], values);
      ghost var cells := Neighbours(symbol.x, symbol.y);
      assert cells[..0] == [];
      AppendNothing(before);
      for j := 0 to 8
        invariant positions[..] == cells
        invariant seen == Ids(Dedup(before + LookUp(cells[..j], values)))
        invariant sum == SumOf(Dedup(before + LookUp(cells[..j], values)), ValueOf)
      {
        ghost var front := before + LookUp(cells[..j], values);
        LookUpStep(cells, values, j);
        assert positions[j] == cells[j];
        if positions[j] in values {
          var stored := values[positions[j]];
          AppendAssocOf(before, LookUp(cells[..j], values), [stored]);
          FirstSeen(front, stored);
          if stored.id !in seen {
            seen := seen + {stored.id};
            sum := sum + stored.value;
          }
        } else {
          AppendNothing(LookUp(cells[..j], values));
        }
      }
      assert cells[..8] == cells;
      HitsStep(symbols, values, i);
    }
    assert symbols[..|symbols|] == symbols;
  }

  // ---------------------------------------------------------------------
  // What the definitions mean.

  /** The entries kept are entries of the input, their ids are pairwise
      distinct, and they cover every id of the input. */
  lemma DedupMeaning(h: seq<Stored>)
    ensures forall j :: 0 <= j < |Dedup(h)| ==> Dedup(h)[j] in h
    ensures forall i, j :: 0 <= i < j < |Dedup(h)| ==> Dedup(h)[i].id != Dedup(h)[j].id
    ensures Ids(Dedup(h)) == Ids(h)
  {
    DedupMembers(h);
    DedupDistinct(h);
    DedupIds(h);
  }

  lemma {:induction false} DedupMembers(h: seq<Stored>)
    ensures forall j :: 0 <= j < |Dedup(h)| ==> Dedup(h)[j] in h
    decreases |h|
  {
    if h != [] {
      var front := h[..|h| - 1];
      var last := h[|h| - 1];
      assert h == front + [last];
      DedupMembers(front);
      DedupStep(front, last);
      forall j | 0 <= j < |Dedup(h)|
        ensures Dedup(h)[j] in h
      {
        if j < |Dedup(front)| {
          assert Dedup(h)[j] == Dedup(front)[j];
          assert Dedup(front)[j] in front;
        }
      }
    }
  }

  lemma {:induction false} DedupDistinct(h: seq<Stored>)
    ensures forall i, j :: 0 <= i < j < |Dedup(h)| ==> Dedup(h)[i].id != Dedup(h)[j].id
    decreases |h|
  {
    if h != [] {
      var front := h[..|h| - 1];
      var last := h[|h| - 1];
      assert h == front + [last];
      DedupDistinct(front);
      DedupStep(front, last);
      if last.id !in Ids(Dedup(front)) {
        forall i | 0 <= i < |Dedup(front)|
          ensures Dedup(front)[i].id != last.id
        {
          assert Dedup(front)[i].id in Ids(Dedup(front));
        }
      }
    }
  }

  lemma {:induction false} DedupIds(h: seq<Stored>)
    ensures Ids(Dedup(h)) == Ids(h)
    decreases |h|
  {
    if h != [] {
      var front := h[..|h| - 1];
      var last := h[|h| - 1];
      assert h == front + [last];
      DedupIds(front);
      DedupStep(front, last);
      IdsStep(front, last);
      IdsStep(Dedup(front), last);
    }
  }

  /** Stored number `s` is at a cell next to `symbol`. */
  ghost predicate Touches(symbol: Symbol, values: map<(int, int), Stored>, s: Stored)
  {
    exists a, b :: Adjacent(symbol.x, symbol.y, a, b) && (a, b) in values && values[(a, b)] == s
  }

  /** A number is met around the symbols exactly when one of its cells is
      next to one of the symbols. */
  lemma {:induction false} HitsMeaning(symbols: seq<Symbol>, values: map<(int, int), Stored>, s: Stored)
    ensures s in Hits(symbols, values) <==> exists i :: 0 <= i < |symbols| && Touches(symbols[i], values, s)
    decreases |symbols|
  {
    if symbols != [] {
      var n := |symbols| - 1;
      var front := symbols[..n];
      HitsMeaning(front, values, s);
      TouchesMeaning(symbols[n], values, s);
      assert forall i :: 0 <= i < n ==> front[i] == symbols[i];
    }
  }

  /** The numbers found around one symbol are those touching it. */
  lemma TouchesMeaning(symbol: Symbol, values: map<(int, int), Stored>, s: Stored)
    ensures s in LookUp(Neighbours(symbol.x, symbol.y), values) <==> Touches(symbol, values, s)
  {
    var cells := Neighbours(symbol.x, symbol.y);
    LookUpMeaning(cells, values, s);
    NeighboursMeaning(symbol.x, symbol.y);
    if s in LookUp(cells, values) {
      var c :| c in cells && c in values && values[c] == s;
      assert Adjacent(symbol.x, symbol.y, c.0, c.1);
    }
    if Touches(symbol, values, s) {
      var a, b :| Adjacent(symbol.x, symbol.y, a, b) && (a, b) in values && values[(a, b)] == s;
      assert (a, b) in cells;
    }
  }

  /** The numbers found at a list of cells are the stored numbers of its
      cells that hold one. */
  lemma {:induction false} LookUpMeaning(cells: seq<(int, int)>, values: map<(int, int), Stored>, s: Stored)
    ensures s in LookUp(cells, values) <==> exists c :: c in cells && c in values && values[c] == s
    decreases |cells|
  {
    if cells != [] {
      var front := cells[..|cells| - 1];
      LookUpMeaning(front, values, s);
      assert cells == front + [cells[|cells| - 1]];
      if exists c :: c in cells && c in values && values[c] == s {
        var c :| c in cells && c in values && values[c] == s;
        assert c in front || c == cells[|cells| - 1];
      }
    }
  }

  /** The answer of part 1 adds, once per distinct number touching some
      symbol, that number's value. */
  lemma Part01Meaning(data: Schematic)
    ensures var d := Dedup(Hits(data.symbols, data.values));
      (forall j :: 0 <= j < |d| ==> d[j] in Hits(data.symbols, data.values)) &&
      (forall i, j :: 0 <= i < j < |d| ==> d[i].id != d[j].id) &&
      Ids(d) == Ids(Hits(data.symbols, data.values))
  {
    DedupMeaning(Hits(data.symbols, data.values));
  }

  // ---------------------------------------------------------------------
  // Part 2.

  /** The `seen_values` map of one gear: id to value, later entries for the
      same id replacing earlier ones. */
  function MapOf(d: seq<Stored>): map<(int, int), nat>
    decreases |d|
  {
    if d == [] then map[]
    else MapOf(d[..|d| - 1])[d[|d| - 1].id := d[|d| - 1].value]
  }

  /** What a `*` symbol adds: the product of the two numbers touching it
      when exactly two distinct numbers do, and nothing otherwise. */
  function Gear(symbol: Symbol, values: map<(int, int), Stored>): int
  {
    var d := Dedup(LookUp(Neighbours(symbol.x, symbol.y), values));
    if |d| == 2 then d[0].value * d[1].value else 0
  }

  /** The answer of part 2: the gears of the `*` symbols, in order. */
  function GearSum(symbols: seq<Symbol>, values: map<(int, int), Stored>): int
    decreases |symbols|
  {
    if symbols == [] then 0
    else
      var last := symbols[|symbols| - 1];
      GearSum(symbols[..|symbols| - 1], values) + (if last.c == '*' then Gear(last, values) else 0)
  }

  /** The map holds one entry per id kept, each with that entry's value. */
  lemma MapOfMeaning(d: seq<Stored>)
    requires forall i, j :: 0 <= i < j < |d| ==> d[i].id != d[j].id
    ensures MapOf(d).Keys == Ids(d) && |MapOf(d)| == |d|
    ensures forall i :: 0 <= i < |d| ==> MapOf(d)[d[i].id] == d[i].value
  {
    MapOfKeys(d);
    MapOfSize(d);
    MapOfValues(d);
  }

  lemma {:induction false} MapOfSize(d: seq<Stored>)
    requires forall i, j :: 0 <= i < j < |d| ==> d[i].id != d[j].id
    ensures |MapOf(d)| == |d|
    decreases |d|
  {
    if d != [] {
      var front := d[..|d| - 1];
      var last := d[|d| - 1];
      assert d == front + [last];
      MapOfSize(front);
      MapOfKeys(front);
      IdsStep(front, last);
      forall j | 0 <= j < |front|
        ensures front[j].id != last.id
      {
        assert front[j] == d[j];
      }
    }
  }

  lemma {:induction false} MapOfValues(d: seq<Stored>)
    requires forall i, j :: 0 <= i < j < |d| ==> d[i].id != d[j].id
    ensures forall i :: 0 <= i < |d| ==> d[i].id in MapOf(d) && MapOf(d)[d[i].id] == d[i].value
    decreases |d|
  {
    if d != [] {
      var front := d[..|d| - 1];
      var last := d[|d| - 1];
      MapOfValues(front);
      forall i | 0 <= i < |d|
        ensures d[i].id in MapOf(d) && MapOf(d)[d[i].id] == d[i].value
      {
        if i < |front| {
          assert front[i] == d[i];
        }
      }
    }
  }

  /** The keys of the map are the ids kept. */
  lemma {:induction false} MapOfKeys(d: seq<Stored>)
    ensures MapOf(d).Keys == Ids(d)
    decreases |d|
  {
    if d != [] {
      var front := d[..|d| - 1];
      assert d == front + [d[|d| - 1]];
      MapOfKeys(front);
      IdsStep(front, d[|d| - 1]);
    }
  }

  /** One more entry in the `seen_values` map of a gear. */
  lemma MapStep(h: seq<Stored>, s: Stored)
    ensures MapOf(Dedup(h + [s])) ==
      if s.id in MapOf(Dedup(h)) then MapOf(Dedup(h)) else MapOf(Dedup(h))[s.id := s.value]
  {
    DedupStep(h, s);
    MapOfKeys(Dedup(h));
    MapOfSnoc(Dedup(h), s);
  }

  lemma MapOfSnoc(d: seq<Stored>, s: Stored)
    ensures MapOf(d + [s]) == MapOf(d)[s.id := s.value]
  {
    assert (d + [s])[..|d|] == d;
  }

  /** The `for coords in symbol.adjacent_cells()` loop of `part02`. */
  method GearMap(symbol: Symbol, values: map<(int, int), Stored>) returns (seen: map<(int, int), nat>)
    ensures seen == MapOf(Dedup(LookUp(Neighbours(symbol.x, symbol.y), values)))
  {
    var positions := AdjacentCells(symbol.x, symbol.y);
    ghost var cells := Neighbours(symbol.x, symbol.y);
    seen := map[];
    assert cells[..0] == [];
    for j := 0 to 8
      invariant positions[..] == cells
      invariant seen == MapOf(Dedup(LookUp(cells[..j], values)))
    {
      LookUpStep(cells, values, j);
      assert positions[j] == cells[j];
      if positions[j] in values {
        var stored := values[positions[j]];
        MapStep(LookUp(cells[..j], values), stored);
        if stored.id in seen {
          continue;
        }
        seen := seen[stored.id := stored.value];
      } else {
        AppendNothing(LookUp(cells[..j], values));
      }
    }
    assert cells[..8] == cells;
  }

  /** `part02`: for every `*` symbol, the distinct numbers around it are
      collected, and a pair adds its product. */
  method Part02(data: Schematic) returns (sum: int)
    ensures sum == GearSum(data.symbols, data.values)
  {
    var symbols, values := data.symbols, data.values;
    sum := 0;
    for i := 0 to |symbols|
      invariant sum == GearSum(symbols[..i], values)
    {
      assert symbols[..i + 1][..i] == symbols[..i];
      var symbol := symbols[i];
      if symbol.c != '*' {
        continue;
      }
      var seen := GearMap(symbol, values);
      if |seen| == 2 {
        var a :| a in seen;
        OtherKey(symbol, values, seen, a);
        var b :| b in seen && b != a;
        PairProduct(symbol, values, seen, a, b);
        sum := sum + seen[a] * seen[b];
      } else {
        ghost var d := Dedup(LookUp(Neighbours(symbol.x, symbol.y), values));
        DedupMeaning(LookUp(Neighbours(symbol.x, symbol.y), values));
        MapOfMeaning(d);
      }
    }
    assert symbols[..|symbols|] == symbols;
  }

  /** The product of the two values in a gear's map, taken in either order,
      is the gear of the symbol. */
  lemma PairProduct(symbol: Symbol, values: map<(int, int), Stored>, seen: map<(int, int), nat>, a: (int, int), b: (int, int))
    requires seen == MapOf(Dedup(LookUp(Neighbours(symbol.x, symbol.y), values)))
    requires |seen| == 2 && a in seen && b in seen && a != b
    ensures seen[a] * seen[b] == Gear(symbol, values)
  {
    var d := Dedup(LookUp(Neighbours(symbol.x, symbol.y), values));
    DedupMeaning(LookUp(Neighbours(symbol.x, symbol.y), values));
    MapOfMeaning(d);
    assert Ids(d) == {d[0].id, d[1].id};
    if a == d[0].id {
      assert b == d[1].id;
    } else {
      assert a == d[1].id && b == d[0].id;
    }
  }

  /** A map of two entries has a key besides `a`. */
  lemma OtherKey(symbol: Symbol, values: map<(int, int), Stored>, seen: map<(int, int), nat>, a: (int, int))
    requires seen == MapOf(Dedup(LookUp(Neighbours(symbol.x, symbol.y), values)))
    requires |seen| == 2 && a in seen
    ensures exists b :: b in seen && b != a
  {
    var d := Dedup(LookUp(Neighbours(symbol.x, symbol.y), values));
    DedupMeaning(LookUp(Neighbours(symbol.x, symbol.y), values));
    MapOfMeaning(d);
    assert Ids(d) == {d[0].id, d[1].id};
    if a == d[0].id {
      assert d[1].id in seen;
    } else {
      assert d[0].id in seen;
    }
  }

  /** Distinct ids: as many ids as entries. */
  lemma {:induction false} DistinctIds(d: seq<Stored>)
    requires forall i, j :: 0 <= i < j < |d| ==> d[i].id != d[j].id
    ensures |Ids(d)| == |d|
  {
    MapOfMeaning(d);
  }

  /** A `*` symbol adds something only when exactly two distinct numbers
      touch it, and then the product of those two numbers. */
  lemma GearMeaning(symbol: Symbol, values: map<(int, int), Stored>)
    ensures var around := LookUp(Neighbours(symbol.x, symbol.y), values);
      (|Ids(around)| != 2 ==> Gear(symbol, values) == 0) &&
      (|Ids(around)| == 2 ==>
        exists s, t :: s in around && t in around && s.id != t.id && Gear(symbol, values) == s.value * t.value)
  {
    var around := LookUp(Neighbours(symbol.x, symbol.y), values);
    var d := Dedup(around);
    DedupMeaning(around);
    DistinctIds(d);
    if |d| == 2 {
      assert d[0] in around && d[1] in around;
    }
  }
}
