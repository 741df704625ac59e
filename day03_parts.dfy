/** The schematic of day03/src/main.rs once every row is read: the value map
    keyed by cell, the symbols in reading order, the eight cells around a
    symbol, and the two sums. */
module Day03Parts {

  import opened Parsing
  import opened Day03

  // ---------------------------------------------------------------------
  // `Symbol::adjacent_cells`.

  /** The eight cells around `(x, y)`, in the order the two nested loops of
      `adjacent_cells` visit them: column by column, top to bottom within a
      column, leaving out the centre. */
  function Neighbours(x: int, y: int): seq<(int, int)>
  {
    [(x - 1, y - 1), (x - 1, y), (x - 1, y + 1),
     (x, y - 1), (x, y + 1),
     (x + 1, y - 1), (x + 1, y), (x + 1, y + 1)]
  }

  /** `(a, b)` touches `(x, y)`: at most one step away on each axis, and not
      the cell itself. */
  predicate Adjacent(x: int, y: int, a: int, b: int)
  {
    -1 <= a - x <= 1 && -1 <= b - y <= 1 && (a, b) != (x, y)
  }

  /** How many cells the loops of `adjacent_cells` have stored before they
      reach column `a`, row `b`. */
  function Visited(x: int, y: int, a: int, b: int): int
  {
    3 * (a - (x - 1)) + (b - (y - 1)) - (if a > x || (a == x && b > y) then 1 else 0)
  }

  /** `adjacent_cells`: two nested loops over the 3 x 3 block around the
      symbol, skipping its own cell, filling an array of eight positions. */
  method AdjacentCells(x: int, y: int) returns (positions: array<(int, int)>)
    ensures fresh(positions)
    ensures positions[..] == Neighbours(x, y)
  {
    var index := 0;
    positions := new (int, int)[8](_ => (0, 0));
    for xPos := x - 1 to x + 2
      invariant index == Visited(x, y, xPos, y - 1)
      invariant positions[..index] == Neighbours(x, y)[..index]
    {
      for yPos := y - 1 to y + 2
        invariant index == Visited(x, y, xPos, yPos)
        invariant positions[..index] == Neighbours(x, y)[..index]
      {
        if xPos == x && yPos == y {
          continue;
        }
        assert Neighbours(x, y)[index] == (xPos, yPos);
        positions[index] := (xPos, yPos);
        index := index + 1;
      }
    }
    assert index == 8;
  }

  /** The eight positions are distinct and are exactly the cells adjacent
      to the symbol. */
  lemma NeighboursMeaning(x: int, y: int)
    ensures |Neighbours(x, y)| == 8
    ensures forall i, j :: 0 <= i < j < 8 ==> Neighbours(x, y)[i] != Neighbours(x, y)[j]
    ensures forall a, b :: (a, b) in Neighbours(x, y) <==> Adjacent(x, y, a, b)
  {
    forall a, b | Adjacent(x, y, a, b)
      ensures (a, b) in Neighbours(x, y)
    {
      var i := Visited(x, y, a, b);
      assert Neighbours(x, y)[i] == (a, b);
    }
  }

  // ---------------------------------------------------------------------
  // `symbols_and_values`.

  /** `ParsedData`: every symbol of the schematic, and the value map from a
      covered cell to the number covering it. */
  datatype Schematic = Schematic(symbols: seq<Symbol>, values: map<(int, int), Stored>)

  /** `DataValue::coords`. */
  function Coords(c: DataValue): (int, int) { (c.x, c.y) }

  /** What the value map holds for a cell: the number's first cell and value. */
  function StoredOf(c: DataValue): Stored { Stored(c.start, c.value) }

  /** `values.extend(..)`: the cells of a row entered one after another, a
      later entry for the same cell replacing an earlier one. */
  function StoreAll(m: map<(int, int), Stored>, cells: seq<DataValue>): map<(int, int), Stored>
    decreases |cells|
  {
    if cells == [] then m else StoreAll(m[Coords(cells[0]) := StoredOf(cells[0])], cells[1..])
  }

  /** What `symbols_and_values` builds from the lines of the input, row `y`
      being line `y`; `None` where one of the rows makes `line` panic. */
  function Collect(lines: seq<string>): Option<Schematic>
    decreases |lines|
  {
    if lines == [] then Some(Schematic([], map[]))
    else
      var front := Collect(lines[..|lines| - 1]);
      var row := Scan(|lines| - 1, lines[|lines| - 1], 0);
      if front.None? || row.None? then None
      else Some(Schematic(front.value.symbols + row.value.symbols, StoreAll(front.value.values, row.value.values)))
  }

  /** `symbols_and_values`: the rows are read in order; the first row that
      holds a letter makes the whole read panic. */
  method SymbolsAndValues(text: string) returns (r: Option<Schematic>)
    ensures r == Collect(Lines(text))
  {
    var lines := Lines(text);
    var values: map<(int, int), Stored> := map[];
    var symbols: seq<Symbol> := [];
    for y := 0 to |lines|
      invariant Collect(lines[..y]) == Some(Schematic(symbols, values))
    {
      assert lines[..y + 1][..y] == lines[..y];
      var row := Line(y, lines[y]);
      if row.None? {
        CollectFailsLater(lines, y + 1);
        return None;
      }
      values := StoreAll(values, row.value.values);
      symbols := symbols + row.value.symbols;
    }
    assert lines[..|lines|] == lines;
    return Some(Schematic(symbols, values));
  }

  /** Once a prefix of the lines fails, so do all longer prefixes. */
  lemma {:induction false} CollectFailsLater(lines: seq<string>, k: nat)
    requires k <= |lines| && Collect(lines[..k]).None?
    ensures Collect(lines).None?
    decreases |lines| - k
  {
    if k < |lines| {
      assert lines[..k + 1][..k] == lines[..k];
      CollectFailsLater(lines, k + 1);
    } else {
      assert lines[..k] == lines;
    }
  }

  /** No line of the schematic holds a letter. */
  predicate NoLetters(lines: seq<string>)
  {
    forall y, i :: 0 <= y < |lines| && 0 <= i < |lines[y]| ==> !IsAlpha(lines[y][i])
  }

  /** Reading the schematic panics exactly when some line holds a letter. */
  lemma {:induction false} CollectFails(lines: seq<string>)
    ensures Collect(lines).None? <==> !NoLetters(lines)
    decreases |lines|
  {
    if lines != [] {
      var n := |lines| - 1;
      var front := lines[..n];
      CollectFails(front);
      ScanFails(n, lines[n], 0);
      if !NoLetters(front) {
        var y, i :| 0 <= y < |front| && 0 <= i < |front[y]| && IsAlpha(front[y][i]);
        assert lines[y] == front[y];
      }
      if NoLetters(front) && !NoLetters(lines) {
        var y, i :| 0 <= y < |lines| && 0 <= i < |lines[y]| && IsAlpha(lines[y][i]);
        assert y < n ==> front[y] == lines[y];
      }
    }
  }

  /** The symbols of every line, top to bottom and left to right. */
  function AllSymbols(lines: seq<string>): seq<Symbol>
    decreases |lines|
  {
    if lines == [] then []
    else AllSymbols(lines[..|lines| - 1]) + SymbolsFrom(|lines| - 1, lines[|lines| - 1], 0)
  }

  /** Cell `k` (column, row) holds a digit. */
  predicate Covered(lines: seq<string>, k: (int, int))
  {
    0 <= k.1 < |lines| && 0 <= k.0 < |lines[k.1]| && IsDigit(lines[k.1][k.0])
  }

  /** On a schematic without letters, the symbols are every symbol
      character in reading order, and the value map holds exactly the digit
      cells, each mapped to the number its run of digits writes, identified
      by the run's first cell. */
  lemma {:induction false} CollectMeaning(lines: seq<string>)
    requires NoLetters(lines)
    ensures Collect(lines).Some?
    ensures Collect(lines).value.symbols == AllSymbols(lines)
    ensures forall k :: k in Collect(lines).value.values <==> Covered(lines, k)
    ensures forall k :: Covered(lines, k) ==>
      Collect(lines).value.values[k] == StoredOf(CellValue(k.1, lines[k.1], k.0))
    decreases |lines|
  {
    if lines != [] {
      var n := |lines| - 1;
      var front := lines[..n];
      assert NoLetters(front) by {
        forall y, i | 0 <= y < |front| && 0 <= i < |front[y]|
          ensures !IsAlpha(front[y][i])
        {
          assert front[y] == lines[y];
        }
      }
      CollectMeaning(front);
      ScanMeaning(n, lines[n], 0, lines[n][0..]);
      assert lines[n][0..] == lines[n];
      var m := Collect(front).value.values;
      RowStore(m, n, lines[n]);
      forall k | Covered(lines, k) && k.1 < n
        ensures Covered(front, k)
      {
        assert front[k.1] == lines[k.1];
      }
      forall k | Covered(front, k)
        ensures Covered(lines, k) && k.1 < n
      {
        assert front[k.1] == lines[k.1];
      }
    }
  }

  /** Entering the values of row `y` adds exactly its digit cells, each with
      the number of its run, and leaves every other cell as it was. */
  lemma RowStore(m: map<(int, int), Stored>, y: int, s: string)
    ensures forall k :: k in StoreAll(m, CellsFrom(y, s, 0)) <==>
      (k.1 == y && 0 <= k.0 < |s| && IsDigit(s[k.0])) || k in m
    ensures forall k: (int, int) :: k.1 == y && 0 <= k.0 < |s| && IsDigit(s[k.0]) ==>
      StoreAll(m, CellsFrom(y, s, 0))[k] == StoredOf(CellValue(y, s, k.0))
    ensures forall k :: k in m && !(k.1 == y && 0 <= k.0 < |s| && IsDigit(s[k.0])) ==>
      StoreAll(m, CellsFrom(y, s, 0))[k] == m[k]
  {
    var cells := CellsFrom(y, s, 0);
    CellsFromMeans(y, s, 0);
    forall k: (int, int)
      ensures k in StoreAll(m, cells) <==> (k.1 == y && 0 <= k.0 < |s| && IsDigit(s[k.0])) || k in m
      ensures k.1 == y && 0 <= k.0 < |s| && IsDigit(s[k.0]) ==> StoreAll(m, cells)[k] == StoredOf(CellValue(y, s, k.0))
      ensures k in m && !(k.1 == y && 0 <= k.0 < |s| && IsDigit(s[k.0])) ==> StoreAll(m, cells)[k] == m[k]
    {
      if k.1 == y && 0 <= k.0 < |s| && IsDigit(s[k.0]) {
        var v := StoredOf(CellValue(y, s, k.0));
        var j :| 0 <= j < |cells| && cells[j] == CellValue(y, s, k.0);
        StoreAllAt(m, cells, k, v);
      } else {
        StoreAllAt(m, cells, k, Stored((0, 0), 0));
      }
    }
  }

  /** The value map after entering `cells` at cell `k`: when every entry for
      `k` stores `v` and there is one, it holds `v`; when there is none, it
      holds what it held before. */
  lemma {:induction false} StoreAllAt(m: map<(int, int), Stored>, cells: seq<DataValue>, k: (int, int), v: Stored)
    requires forall j :: 0 <= j < |cells| && Coords(cells[j]) == k ==> StoredOf(cells[j]) == v
    ensures (exists j :: 0 <= j < |cells| && Coords(cells[j]) == k) ==>
      k in StoreAll(m, cells) && StoreAll(m, cells)[k] == v
    ensures (forall j :: 0 <= j < |cells| ==> Coords(cells[j]) != k) ==>
      (k in StoreAll(m, cells) <==> k in m) && (k in m ==> StoreAll(m, cells)[k] == m[k])
    decreases |cells|
  {
    if cells != [] {
      var m' := m[Coords(cells[0]) := StoredOf(cells[0])];
      var rest := cells[1..];
      assert forall j :: 0 <= j < |rest| ==> rest[j] == cells[j + 1];
      StoreAllAt(m', rest, k, v);
      if exists j :: 0 <= j < |rest| && Coords(rest[j]) == k {
        var j :| 0 <= j < |rest| && Coords(rest[j]) == k;
        assert Coords(cells[j + 1]) == k;
      }
    }
  }
}
