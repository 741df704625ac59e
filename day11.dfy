/** Day 11 (day11/src/main.rs): the galaxies of an image, every row and
    every column without a galaxy grown `oldness` times, and the sum of the
    Manhattan distances between every pair of galaxies. */
module Day11 {

  import opened Parsing

  /** `Galaxy`: a position, `y` growing downwards. */
  datatype Galaxy = Galaxy(x: int, y: int)

  /** `TokenLine`: a row without a galaxy, or the lengths of the runs of
      dots before each galaxy of the row. */
  datatype TokenLine = Blank | Galaxies(gaps: seq<nat>)

  // ---------------------------------------------------------------------
  // The grammar.

  /** `many0` of `tuple((blank, char('#')))`: the number of dots before each
      `#`, up to the first place where dots are not followed by a `#`. */
  function Gaps(s: string): (gaps: seq<nat>)
    ensures |gaps| <= |s|
    decreases |s|
  {
    var n := RunLength(s, '.');
    if n < |s| && s[n] == '#' then [n] + Gaps(s[n + 1..]) else []
  }

  /** `parser` (with `galaxy` and `blank`): `many1` fails exactly when no
      `#` follows the leading dots, and `finish` turns that failure into
      `Blank`; whatever follows the last galaxy is ignored. */
  function Parser(s: string): TokenLine
  {
    if Gaps(s) == [] then Blank else Galaxies(Gaps(s))
  }

  /** The columns of the galaxies of a row whose first character is column
      `start`: the `x` that `parse_data` computes for each gap. */
  function ColumnsFrom(gaps: seq<nat>, start: nat): seq<nat>
    decreases |gaps|
  {
    if gaps == [] then [] else [start + gaps[0]] + ColumnsFrom(gaps[1..], start + gaps[0] + 1)
  }

  /** The column just after the last galaxy: `x_offset` once the row is
      done. */
  function EndFrom(gaps: seq<nat>, start: nat): nat
    decreases |gaps|
  {
    if gaps == [] then start else EndFrom(gaps[1..], start + gaps[0] + 1)
  }

  /** One more gap adds one more galaxy, after the ones before. */
  lemma {:induction false} ColumnsAppend(gaps: seq<nat>, n: nat, start: nat)
    ensures ColumnsFrom(gaps + [n], start) == ColumnsFrom(gaps, start) + [EndFrom(gaps, start) + n]
    ensures EndFrom(gaps + [n], start) == EndFrom(gaps, start) + n + 1
    decreases |gaps|
  {
    if gaps == [] {
      assert gaps + [n] == [n];
    } else {
      assert (gaps + [n])[1..] == gaps[1..] + [n];
      ColumnsAppend(gaps[1..], n, start + gaps[0] + 1);
    }
  }

  /** A row of the image: only dots and galaxies. */
  predicate IsImageRow(s: string)
  {
    forall i :: 0 <= i < |s| ==> s[i] == '.' || s[i] == '#'
  }

  /** The columns of the `#` characters of `s`, counted from `start`, in
      order. */
  function HashesFrom(s: string, start: nat): seq<nat>
    decreases |s|
  {
    if s == [] then [] else (if s[0] == '#' then [start] else []) + HashesFrom(s[1..], start + 1)
  }

  /** Leading dots add no `#`. */
  lemma {:induction false} DotsSkipped(s: string, n: nat, start: nat)
    requires n <= |s|
    requires forall i :: 0 <= i < n ==> s[i] == '.'
    ensures HashesFrom(s, start) == HashesFrom(s[n..], start + n)
    decreases n
  {
    if n > 0 {
      assert s[1..][n - 1..] == s[n..];
      DotsSkipped(s[1..], n - 1, start + 1);
    }
  }

  /** On a row of dots and galaxies, the parsed gaps give exactly the
      columns of the `#` characters, left to right. */
  lemma {:induction false} GapsMeaning(s: string, start: nat)
    requires IsImageRow(s)
    ensures ColumnsFrom(Gaps(s), start) == HashesFrom(s, start)
    decreases |s|
  {
    var n := RunLength(s, '.');
    DotsSkipped(s, n, start);
    if n < |s| {
      var rest := s[n + 1..];
      var gaps := Gaps(rest);
      GapsStep(s, n);
      ColumnsStep(n, gaps, start);
      HashStep(s, n, start);
      ImageRowSuffix(s, n + 1);
      GapsMeaning(rest, start + n + 1);
    } else {
      assert s[n..] == [];
    }
  }

  /** The first gap gives the first column. */
  lemma ColumnsStep(n: nat, gaps: seq<nat>, start: nat)
    ensures ColumnsFrom([n] + gaps, start) == [start + n] + ColumnsFrom(gaps, start + n + 1)
  {
    assert ([n] + gaps)[1..] == gaps;
  }

  /** A row of the image with a `#` after its leading dots has that gap first. */
  lemma GapsStep(s: string, n: nat)
    requires IsImageRow(s) && n == RunLength(s, '.') && n < |s|
    ensures Gaps(s) == [n] + Gaps(s[n + 1..])
  {
    assert s[n] == '#';
  }

  /** The `#` after the leading dots is the first column found. */
  lemma HashStep(s: string, n: nat, start: nat)
    requires IsImageRow(s) && n == RunLength(s, '.') && n < |s|
    ensures HashesFrom(s[n..], start + n) == [start + n] + HashesFrom(s[n + 1..], start + n + 1)
  {
    assert s[n] == '#';
    assert s[n..][1..] == s[n + 1..] && s[n..][0] == '#';
  }

  /** What follows a part of a row of the image is a row of the image. */
  lemma ImageRowSuffix(s: string, k: nat)
    requires IsImageRow(s) && k <= |s|
    ensures IsImageRow(s[k..])
  {
    forall i | 0 <= i < |s| - k
      ensures s[k..][i] == '.' || s[k..][i] == '#'
    {
      assert s[k..][i] == s[k + i];
    }
  }

  /** Column `c` is in `HashesFrom` exactly when the row has a `#` there. */
  lemma {:induction false} HashesMember(s: string, start: nat, c: int)
    ensures c in HashesFrom(s, start) <==> start <= c < start + |s| && s[c - start] == '#'
    decreases |s|
  {
    if s != [] {
      HashesMember(s[1..], start + 1, c);
      if start + 1 <= c < start + |s| {
        assert s[c - start] == s[1..][c - (start + 1)];
      }
    }
  }

  /** `HashesFrom` lists the columns in increasing order, each once. */
  lemma {:induction false} HashesIncreasing(s: string, start: nat)
    ensures forall c :: c in HashesFrom(s, start) ==> c >= start
    ensures Increasing(HashesFrom(s, start))
    decreases |s|
  {
    if s != [] {
      HashesIncreasing(s[1..], start + 1);
      var hs := HashesFrom(s, start);
      var tail := HashesFrom(s[1..], start + 1);
      if s[0] == '#' {
        assert hs == [start] + tail;
        forall p, q | 0 <= p < q < |hs|
          ensures hs[p] < hs[q]
        {
          assert hs[q] == tail[q - 1] && hs[q] in tail;
          if p > 0 {
            assert hs[p] == tail[p - 1];
          }
        }
      } else {
        assert hs == tail;
      }
    }
  }

  /** `HashesFrom` has one column per `#`. */
  lemma {:induction false} HashesCount(s: string, start: nat)
    ensures |HashesFrom(s, start)| == multiset(s)['#']
    decreases |s|
  {
    if s != [] {
      HashesCount(s[1..], start + 1);
      assert s == [s[0]] + s[1..];
      assert multiset(s) == multiset{s[0]} + multiset(s[1..]);
    }
  }

  /** On a row of dots and galaxies the row is `Blank` exactly when it has
      no `#`, and otherwise there are as many galaxies as `#` characters. */
  lemma ParserMeaning(s: string)
    requires IsImageRow(s)
    ensures Parser(s) == Blank <==> '#' !in s
    ensures Parser(s).Galaxies? ==> |Parser(s).gaps| == multiset(s)['#']
  {
    GapsMeaning(s, 0);
    HashesCount(s, 0);
    ColumnsLength(Gaps(s), 0);
    if '#' in s {
      var i :| 0 <= i < |s| && s[i] == '#';
      HashesMember(s, 0, i);
    }
  }

  lemma {:induction false} ColumnsLength(gaps: seq<nat>, start: nat)
    ensures |ColumnsFrom(gaps, start)| == |gaps|
    decreases |gaps|
  {
    if gaps != [] {
      ColumnsLength(gaps[1..], start + gaps[0] + 1);
    }
  }

  // ---------------------------------------------------------------------
  // `parse_data`.

  /** The number of `Blank` rows. */
  function BlankRows(lines: seq<string>): nat
    decreases |lines|
  {
    if lines == [] then 0
    else BlankRows(lines[..|lines| - 1]) + (if Parser(lines[|lines| - 1]) == Blank then 1 else 0)
  }

  /** The galaxies of one row, at row `y`. */
  function RowGalaxies(columns: seq<nat>, y: int): (r: seq<Galaxy>)
    ensures |r| == |columns|
    decreases |columns|
  {
    if columns == [] then []
    else RowGalaxies(columns[..|columns| - 1], y) + [Galaxy(columns[|columns| - 1], y)]
  }

  /** The galaxies in row-major order after the first loop of
      `parse_data`: `x` is the column, `y` the row plus `grow` for every
      `Blank` row above. */
  function Placed(lines: seq<string>, grow: int): seq<Galaxy>
    decreases |lines|
  {
    if lines == [] then []
    else
      var front := lines[..|lines| - 1];
      match Parser(lines[|lines| - 1])
      case Blank => Placed(front, grow)
      case Galaxies(gaps) => Placed(front, grow) + RowGalaxies(ColumnsFrom(gaps, 0), |front| + grow * BlankRows(front))
  }

  /** Some galaxy is in column `c`. */
  predicate Occupied(galaxies: seq<Galaxy>, c: int)
  {
    exists i :: 0 <= i < |galaxies| && galaxies[i].x == c
  }

  /** The number of columns in `a..b` without a galaxy. */
  function EmptyColumns(galaxies: seq<Galaxy>, a: int, b: int): nat
    decreases b - a
  {
    if b <= a then 0
    else EmptyColumns(galaxies, a, b - 1) + (if Occupied(galaxies, b - 1) then 0 else 1)
  }

  /** `data.lines().next().map(str::len).unwrap_or(0)`. */
  function ImageWidth(lines: seq<string>): nat
  {
    if lines == [] then 0 else |lines[0]|
  }

  /** What `parse_data` returns: the galaxies of `Placed`, each moved right
      by `oldness - 1` for every empty column to its left, provided its
      column is within the width of the first line. */
  function Expand(lines: seq<string>, oldness: int): (r: seq<Galaxy>)
    ensures |r| == |Placed(lines, oldness - 1)|
  {
    var placed := Placed(lines, oldness - 1);
    var width := ImageWidth(lines);
    seq(|placed|, i requires 0 <= i < |placed| =>
      var g := placed[i];
      Galaxy(g.x + (if 0 <= g.x < width then (oldness - 1) * EmptyColumns(placed, 0, g.x) else 0), g.y))
  }

  /** Strictly increasing indices. */
  predicate Increasing(indices: seq<nat>)
  {
    forall p, q :: 0 <= p < q < |indices| ==> indices[p] < indices[q]
  }

  /** `column_map` lists, for every column holding a galaxy and for no
      other, the indices of the galaxies in that column, in order. */
  predicate Indexed(columnMap: map<int, seq<nat>>, rows: seq<Galaxy>)
  {
    (forall k :: k in columnMap ==> ListsColumn(columnMap[k], rows, k))
    && (forall i :: 0 <= i < |rows| ==> rows[i].x in columnMap && i in columnMap[rows[i].x])
  }

  /** `indices` lists, in order, some of the galaxies of column `k`. */
  predicate ListsColumn(indices: seq<nat>, rows: seq<Galaxy>, k: int)
  {
    indices != [] && Increasing(indices) &&
    forall j :: 0 <= j < |indices| ==> indices[j] < |rows| && rows[indices[j]].x == k
  }

  /** A list of a column stays one when a galaxy is pushed. */
  lemma ListsColumnGrow(indices: seq<nat>, rows: seq<Galaxy>, k: int, g: Galaxy)
    requires ListsColumn(indices, rows, k)
    ensures ListsColumn(indices, rows + [g], k)
  {
    forall j | 0 <= j < |indices|
      ensures (rows + [g])[indices[j]] == rows[indices[j]]
    {
    }
  }

  /** A list of a column takes the index of a galaxy pushed into it. */
  lemma ListsColumnPush(indices: seq<nat>, rows: seq<Galaxy>, g: Galaxy)
    requires indices == [] || ListsColumn(indices, rows, g.x)
    ensures ListsColumn(indices + [|rows|], rows + [g], g.x)
  {
    var longer := indices + [|rows|];
    forall j | 0 <= j < |longer|
      ensures longer[j] < |rows| + 1 && (rows + [g])[longer[j]].x == g.x
    {
      if j < |indices| {
        assert longer[j] == indices[j];
      }
    }
    forall p, q | 0 <= p < q < |longer|
      ensures longer[p] < longer[q]
    {
      if q < |indices| {
        assert longer[p] == indices[p] && longer[q] == indices[q];
      } else {
        assert longer[p] == indices[p];
      }
    }
  }

  /** Recording one more galaxy keeps the index. */
  lemma IndexedPush(columnMap: map<int, seq<nat>>, rows: seq<Galaxy>, g: Galaxy)
    requires Indexed(columnMap, rows)
    ensures Indexed(Record(columnMap, g.x, |rows|), rows + [g])
  {
    var after := Record(columnMap, g.x, |rows|);
    var more := rows + [g];
    forall k | k in after
      ensures ListsColumn(after[k], more, k)
    {
      if k == g.x {
        ListsColumnPush(if g.x in columnMap then columnMap[k] else [], rows, g);
      } else {
        ListsColumnGrow(columnMap[k], rows, k, g);
      }
    }
    forall i | 0 <= i < |more|
      ensures more[i].x in after && i in after[more[i].x]
    {
      if i < |rows| {
        assert more[i] == rows[i];
      }
    }
  }

  /** With the index, a column has a key exactly when a galaxy is in it,
      and its list holds every galaxy of that column. */
  lemma IndexedKeys(columnMap: map<int, seq<nat>>, rows: seq<Galaxy>, c: int)
    requires Indexed(columnMap, rows)
    ensures c in columnMap <==> Occupied(rows, c)
  {
    if c in columnMap {
      assert ListsColumn(columnMap[c], rows, c);
      assert rows[columnMap[c][0]].x == c;
    }
  }

  /** `parse_data`: the first loop places the galaxies row by row and
      indexes them by column; the second moves them right past the empty
      columns, updating `rows` in place. */
  method ParseData(data: string, oldness: int) returns (rows: seq<Galaxy>)
    ensures rows == Expand(Lines(data), oldness)
  {
    var lines := Lines(data);
    var grow := oldness - 1;
    var columnMap;
    rows, columnMap := PlaceGalaxies(lines, grow);
    ghost var placed := rows;
    var width := ImageWidth(lines);
    rows := ShiftColumns(rows, columnMap, width, grow);
    assert forall i :: 0 <= i < |rows| ==> rows[i] == Expand(lines, oldness)[i];
  }

  /** The first loop of `parse_data`, over the rows. */
  method PlaceGalaxies(lines: seq<string>, grow: int) returns (rows: seq<Galaxy>, columnMap: map<int, seq<nat>>)
    ensures rows == Placed(lines, grow)
    ensures Indexed(columnMap, rows)
  {
    rows := [];
    columnMap := map[];
    var yOffset := 0;
    ghost var blanks := 0;
    for y := 0 to |lines|
      invariant rows == Placed(lines[..y], grow)
      invariant blanks == BlankRows(lines[..y]) && yOffset == grow * blanks
      invariant Indexed(columnMap, rows)
    {
      rows, columnMap, yOffset, blanks := PlaceLine(lines, y, grow, rows, columnMap, yOffset, blanks);
    }
    assert lines[..|lines|] == lines;
  }

  /** One pass of the first loop of `parse_data`: row `y` either counts as
      blank or has its galaxies placed. */
  method PlaceLine(lines: seq<string>, y: nat, grow: int, rows: seq<Galaxy>, columnMap: map<int, seq<nat>>,
                   yOffset: int, ghost blanks: nat)
    returns (newRows: seq<Galaxy>, newMap: map<int, seq<nat>>, newOffset: int, ghost newBlanks: nat)
    requires y < |lines| && rows == Placed(lines[..y], grow) && Indexed(columnMap, rows)
    requires blanks == BlankRows(lines[..y]) && yOffset == grow * blanks
    ensures newRows == Placed(lines[..y + 1], grow) && Indexed(newMap, newRows)
    ensures newBlanks == BlankRows(lines[..y + 1]) && newOffset == grow * newBlanks
  {
    var row := Parser(lines[y]);
    PlacedStep(lines, y, grow, row);
    BlankRowsStep(lines, y);
    if row.Blank? {
      MulAdd(grow, blanks, 1);
      newRows, newMap, newOffset, newBlanks := rows, columnMap, yOffset + grow, blanks + 1;
    } else {
      newRows, newMap := PlaceRow(rows, columnMap, row.gaps, y + yOffset);
      newOffset, newBlanks := yOffset, blanks;
    }
  }

  /** One more row adds its galaxies, none for a `Blank` row. */
  lemma PlacedStep(lines: seq<string>, y: nat, grow: int, row: TokenLine)
    requires y < |lines| && row == Parser(lines[y])
    ensures row.Blank? ==> Placed(lines[..y + 1], grow) == Placed(lines[..y], grow)
    ensures row.Galaxies? ==>
      Placed(lines[..y + 1], grow) == Placed(lines[..y], grow) + RowGalaxies(ColumnsFrom(row.gaps, 0), y + grow * BlankRows(lines[..y]))
  {
    var prefix := lines[..y + 1];
    assert prefix[..y] == lines[..y];
  }

  /** One more row adds one `Blank` row if it is one. */
  lemma BlankRowsStep(lines: seq<string>, y: nat)
    requires y < |lines|
    ensures BlankRows(lines[..y + 1]) == BlankRows(lines[..y]) + if Parser(lines[y]) == Blank then 1 else 0
  {
    assert lines[..y + 1][..y] == lines[..y];
  }

  /** The inner loop of the first loop of `parse_data`: one row's galaxies
      pushed and indexed by column. */
  method PlaceRow(before: seq<Galaxy>, beforeMap: map<int, seq<nat>>, gaps: seq<nat>, y: int)
    returns (rows: seq<Galaxy>, columnMap: map<int, seq<nat>>)
    requires Indexed(beforeMap, before)
    ensures rows == before + RowGalaxies(ColumnsFrom(gaps, 0), y)
    ensures Indexed(columnMap, rows)
  {
    rows, columnMap := before, beforeMap;
    var xOffset := 0;
    for j := 0 to |gaps|
      invariant rows == before + RowGalaxies(ColumnsFrom(gaps[..j], 0), y)
      invariant xOffset == EndFrom(gaps[..j], 0)
      invariant Indexed(columnMap, rows)
    {
      rows, columnMap, xOffset := PushGalaxy(before, gaps, j, y, rows, columnMap, xOffset);
    }
    assert gaps[..|gaps|] == gaps;
  }

  /** One pass of the inner loop: the galaxy after gap `j` pushed and
      recorded under its column. */
  method PushGalaxy(before: seq<Galaxy>, gaps: seq<nat>, j: nat, y: int, rows: seq<Galaxy>,
                    columnMap: map<int, seq<nat>>, xOffset: int)
    returns (newRows: seq<Galaxy>, newMap: map<int, seq<nat>>, newOffset: int)
    requires j < |gaps| && rows == before + RowGalaxies(ColumnsFrom(gaps[..j], 0), y)
    requires xOffset == EndFrom(gaps[..j], 0) && Indexed(columnMap, rows)
    ensures newRows == before + RowGalaxies(ColumnsFrom(gaps[..j + 1], 0), y)
    ensures newOffset == EndFrom(gaps[..j + 1], 0) && Indexed(newMap, newRows)
  {
    var x := gaps[j] + xOffset;
    RowStep(gaps, j, y);
    IndexedPush(columnMap, rows, Galaxy(x, y));
    newRows := rows + [Galaxy(x, y)];
    newOffset := xOffset + gaps[j] + 1;
    newMap := Record(columnMap, x, |rows|);
    assert newRows == before + (RowGalaxies(ColumnsFrom(gaps[..j], 0), y) + [Galaxy(x, y)]);
  }

  /** The `column_map` entry of `x` extended by `value`, or created with it. */
  function Record(columnMap: map<int, seq<nat>>, x: int, value: nat): map<int, seq<nat>>
  {
    if x in columnMap then columnMap[x := columnMap[x] + [value]] else columnMap[x := [value]]
  }

  /** One more gap of a row adds its galaxy at the end of the row. */
  lemma RowStep(gaps: seq<nat>, j: nat, y: int)
    requires j < |gaps|
    ensures RowGalaxies(ColumnsFrom(gaps[..j + 1], 0), y)
         == RowGalaxies(ColumnsFrom(gaps[..j], 0), y) + [Galaxy(EndFrom(gaps[..j], 0) + gaps[j], y)]
    ensures EndFrom(gaps[..j + 1], 0) == EndFrom(gaps[..j], 0) + gaps[j] + 1
  {
    ColumnsAppend(gaps[..j], gaps[j], 0);
    assert gaps[..j + 1] == gaps[..j] + [gaps[j]];
    var columns := ColumnsFrom(gaps[..j], 0);
    var x := EndFrom(gaps[..j], 0) + gaps[j];
    assert (columns + [x])[..|columns|] == columns;
  }

  /** The second loop of `parse_data`: for each column of the first line,
      the galaxies in it move right by the growth so far, and an empty
      column adds `grow` to that growth. */
  method ShiftColumns(placed: seq<Galaxy>, columnMap: map<int, seq<nat>>, width: nat, grow: int)
    returns (rows: seq<Galaxy>)
    requires Indexed(columnMap, placed)
    ensures |rows| == |placed|
    ensures forall i :: 0 <= i < |rows| ==> rows[i] == Shifted(placed[i], placed, grow, width)
  {
    rows := placed;
    var xOffset := 0;
    for x := 0 to width
      invariant |rows| == |placed|
      invariant xOffset == grow * EmptyColumns(placed, 0, x)
      invariant forall i :: 0 <= i < |rows| ==> rows[i] == Shifted(placed[i], placed, grow, x)
    {
      EmptyStep(placed, x, grow);
      IndexedKeys(columnMap, placed, x);
      if x in columnMap {
        IndexedColumn(columnMap, placed, x);
        rows := ShiftColumn(rows, placed, columnMap[x], x, xOffset, grow);
        ShiftedStep(rows, placed, grow, x, columnMap[x]);
      } else {
        xOffset := xOffset + grow;
        ShiftedStep(rows, placed, grow, x, []);
      }
    }
  }

  /** One more column: an empty one adds `grow` to the growth. */
  lemma EmptyStep(placed: seq<Galaxy>, x: nat, grow: int)
    ensures grow * EmptyColumns(placed, 0, x + 1)
         == grow * EmptyColumns(placed, 0, x) + (if Occupied(placed, x) then 0 else grow)
  {
    MulAdd(grow, EmptyColumns(placed, 0, x), if Occupied(placed, x) then 0 else 1);
  }

  /** What the index says about one column that has a key. */
  lemma IndexedColumn(columnMap: map<int, seq<nat>>, placed: seq<Galaxy>, x: int)
    requires Indexed(columnMap, placed) && x in columnMap
    ensures Increasing(columnMap[x])
    ensures forall j :: 0 <= j < |columnMap[x]| ==> columnMap[x][j] < |placed| && placed[columnMap[x][j]].x == x
    ensures forall i :: 0 <= i < |placed| && placed[i].x == x ==> i in columnMap[x]
  {
    assert ListsColumn(columnMap[x], placed, x);
  }

  /** Once the galaxies of column `x` have moved, every galaxy stands as it
      should once the columns before `x + 1` are passed. */
  lemma ShiftedStep(rows: seq<Galaxy>, placed: seq<Galaxy>, grow: int, x: int, indices: seq<nat>)
    requires |rows| == |placed|
    requires forall i :: 0 <= i < |rows| ==> rows[i] == Shifted(placed[i], placed, grow, if i in indices then x + 1 else x)
    requires forall i :: 0 <= i < |placed| && placed[i].x == x ==> i in indices
    requires forall j :: 0 <= j < |indices| ==> indices[j] < |placed| && placed[indices[j]].x == x
    ensures forall i :: 0 <= i < |rows| ==> rows[i] == Shifted(placed[i], placed, grow, x + 1)
  {
    forall i | 0 <= i < |rows|
      ensures rows[i] == Shifted(placed[i], placed, grow, x + 1)
    {
      if i in indices {
        var j :| 0 <= j < |indices| && indices[j] == i;
      }
    }
  }

  /** The innermost loop of `parse_data`: the galaxies listed for column
      `x` move right by `xOffset`. */
  method ShiftColumn(before: seq<Galaxy>, placed: seq<Galaxy>, indices: seq<nat>, x: int, xOffset: int, grow: int)
    returns (rows: seq<Galaxy>)
    requires |before| == |placed| && Increasing(indices)
    requires forall j :: 0 <= j < |indices| ==> indices[j] < |placed| && placed[indices[j]].x == x
    requires xOffset == grow * EmptyColumns(placed, 0, x)
    requires forall i :: 0 <= i < |before| ==> before[i] == Shifted(placed[i], placed, grow, x)
    ensures |rows| == |placed|
    ensures forall i :: 0 <= i < |rows| ==> rows[i] == Shifted(placed[i], placed, grow, if i in indices then x + 1 else x)
  {
    rows := before;
    for j := 0 to |indices|
      invariant |rows| == |placed|
      invariant forall i :: 0 <= i < |rows| ==> rows[i] == Shifted(placed[i], placed, grow, if i in indices[..j] then x + 1 else x)
    {
      var index := indices[j];
      assert index !in indices[..j];
      rows := rows[index := rows[index].(x := rows[index].x + xOffset)];
      assert indices[..j + 1] == indices[..j] + [index];
    }
    assert indices[..|indices|] == indices;
  }

  /** A galaxy of `Placed` as it stands once the second loop of
      `parse_data` has passed the columns before `bound`. */
  function Shifted(g: Galaxy, placed: seq<Galaxy>, grow: int, bound: int): Galaxy
  {
    Galaxy(g.x + (if 0 <= g.x < bound then grow * EmptyColumns(placed, 0, g.x) else 0), g.y)
  }

  // ---------------------------------------------------------------------
  // What the expansion means.

  /** The number of `#` characters of all the rows. */
  function HashCount(lines: seq<string>): nat
    decreases |lines|
  {
    if lines == [] then 0 else HashCount(lines[..|lines| - 1]) + multiset(lines[|lines| - 1])['#']
  }

  /** An image of dots and galaxies has one galaxy per `#`. */
  lemma {:induction false} PlacedCount(lines: seq<string>, grow: int)
    requires forall r :: 0 <= r < |lines| ==> IsImageRow(lines[r])
    ensures |Placed(lines, grow)| == HashCount(lines)
    decreases |lines|
  {
    if lines != [] {
      var front := lines[..|lines| - 1];
      var last := lines[|lines| - 1];
      PlacedCount(front, grow);
      ParserMeaning(last);
      if Parser(last).Galaxies? {
        ColumnsLength(Parser(last).gaps, 0);
      } else {
        assert multiset(last)['#'] == 0;
      }
    }
  }

  /** Every placed galaxy comes from a row `r` that is not `Blank`, sits in
      one of that row's galaxy columns, and is `grow` lower for every
      `Blank` row above it. */
  lemma {:induction false} PlacedRows(lines: seq<string>, grow: int, i: nat)
    requires i < |Placed(lines, grow)|
    ensures exists r :: FromRow(lines, grow, Placed(lines, grow)[i], r)
    decreases |lines|
  {
    var front := lines[..|lines| - 1];
    var last := lines[|lines| - 1];
    var g := Placed(lines, grow)[i];
    if i < |Placed(front, grow)| {
      PlacedRows(front, grow, i);
      var r :| FromRow(front, grow, Placed(front, grow)[i], r);
      assert front[r] == lines[r] && front[..r] == lines[..r];
      assert Placed(lines, grow) == Placed(front, grow) + Placed(lines, grow)[|Placed(front, grow)|..];
      assert FromRow(lines, grow, g, r);
    } else {
      var columns := ColumnsFrom(Parser(last).gaps, 0);
      var y := |front| + grow * BlankRows(front);
      var k := i - |Placed(front, grow)|;
      RowGalaxiesAt(columns, y, k);
      assert lines[..|lines| - 1] == front;
      assert FromRow(lines, grow, g, |lines| - 1);
    }
  }

  /** Galaxy `g` comes from row `r`: the row is not `Blank`, `g` sits in one
      of its galaxy columns and is `grow` lower for every `Blank` row
      above. */
  predicate FromRow(lines: seq<string>, grow: int, g: Galaxy, r: int)
  {
    0 <= r < |lines| && Parser(lines[r]).Galaxies? &&
    g.x in ColumnsFrom(Parser(lines[r]).gaps, 0) &&
    g.y == r + grow * BlankRows(lines[..r])
  }

  /** The `k`-th galaxy of a row is in the `k`-th column. */
  lemma {:induction false} RowGalaxiesAt(columns: seq<nat>, y: int, k: nat)
    requires k < |columns|
    ensures RowGalaxies(columns, y)[k] == Galaxy(columns[k], y)
    decreases |columns|
  {
    if k < |columns| - 1 {
      RowGalaxiesAt(columns[..|columns| - 1], y, k);
    }
  }

  /** The `Blank` rows of two blocks of rows add up. */
  lemma {:induction false} BlankRowsAppend(a: seq<string>, b: seq<string>)
    ensures BlankRows(a + b) == BlankRows(a) + BlankRows(b)
    decreases |b|
  {
    if b == [] {
      assert a + b == a;
    } else {
      assert (a + b)[..|a + b| - 1] == a + b[..|b| - 1];
      BlankRowsAppend(a, b[..|b| - 1]);
    }
  }

  /** Between galaxies of rows `r1 <= r2`, the rows grow apart by `grow` for
      every `Blank` row from `r1` up to `r2`. */
  lemma RowsApart(lines: seq<string>, grow: int, r1: nat, r2: nat)
    requires r1 <= r2 <= |lines|
    ensures (r2 + grow * BlankRows(lines[..r2])) - (r1 + grow * BlankRows(lines[..r1]))
         == (r2 - r1) + grow * BlankRows(lines[r1..r2])
  {
    assert lines[..r2] == lines[..r1] + lines[r1..r2];
    BlankRowsAppend(lines[..r1], lines[r1..r2]);
    MulAdd(grow, BlankRows(lines[..r1]), BlankRows(lines[r1..r2]));
  }

  lemma MulAdd(k: int, a: int, b: int)
    ensures k * (a + b) == k * a + k * b
  {
  }

  /** The empty columns of two adjacent ranges add up. */
  lemma {:induction false} EmptyColumnsSplit(galaxies: seq<Galaxy>, a: int, b: int, c: int)
    requires a <= b <= c
    ensures EmptyColumns(galaxies, a, c) == EmptyColumns(galaxies, a, b) + EmptyColumns(galaxies, b, c)
    decreases c - b
  {
    if b < c {
      EmptyColumnsSplit(galaxies, a, b, c - 1);
    }
  }

  /** Two galaxies in columns `c1 <= c2` within the width move apart by
      `oldness - 1` for every empty column between them; the column of the
      first one holds a galaxy, so only columns strictly between count. */
  lemma ColumnsApart(lines: seq<string>, oldness: int, i: nat, j: nat)
    requires i < |Expand(lines, oldness)| && j < |Expand(lines, oldness)|
    requires 0 <= Placed(lines, oldness - 1)[i].x <= Placed(lines, oldness - 1)[j].x < ImageWidth(lines)
    ensures var placed := Placed(lines, oldness - 1);
            var c1, c2 := placed[i].x, placed[j].x;
            Expand(lines, oldness)[j].x - Expand(lines, oldness)[i].x == (c2 - c1) + (oldness - 1) * EmptyColumns(placed, c1, c2) &&
            EmptyColumns(placed, c1, c2) == (if c1 == c2 then 0 else EmptyColumns(placed, c1 + 1, c2))
  {
    var placed := Placed(lines, oldness - 1);
    var c1, c2 := placed[i].x, placed[j].x;
    EmptyColumnsSplit(placed, 0, c1, c2);
    MulAdd(oldness - 1, EmptyColumns(placed, 0, c1), EmptyColumns(placed, c1, c2));
    if c1 < c2 {
      EmptyColumnsSplit(placed, c1, c1 + 1, c2);
      assert Occupied(placed, c1);
    }
  }

  /** With `oldness` 1 nothing grows: every galaxy stays at its column and
      its row. */
  lemma Unexpanded(lines: seq<string>, i: nat)
    requires i < |Expand(lines, 1)|
    ensures Expand(lines, 1)[i] == Placed(lines, 0)[i]
    ensures exists r :: FromRow(lines, 0, Expand(lines, 1)[i], r) && Expand(lines, 1)[i].y == r
  {
    PlacedRows(lines, 0, i);
  }

  // ---------------------------------------------------------------------
  // Distances.

  /** `Galaxy::distance`: the Manhattan distance. */
  function Distance(a: Galaxy, b: Galaxy): nat
  {
    Abs(b.x - a.x) + Abs(b.y - a.y)
  }

  /** The distance is symmetric, zero exactly on the same position, and
      obeys the triangle inequality. */
  lemma DistanceMeaning(a: Galaxy, b: Galaxy, c: Galaxy)
    ensures Distance(a, b) == Distance(b, a)
    ensures Distance(a, b) == 0 <==> a == b
    ensures Distance(a, c) <= Distance(a, b) + Distance(b, c)
  {
  }

  /** The distances from `g` to each of `others`: one `first.zip(second)`
      of `distances`. */
  function DistancesFrom(g: Galaxy, others: seq<Galaxy>): nat
    decreases |others|
  {
    if others == [] then 0 else Distance(g, others[0]) + DistancesFrom(g, others[1..])
  }

  /** `distances`: for each index, the distances to the galaxies after
      it. */
  function Distances(galaxies: seq<Galaxy>): nat
    decreases |galaxies|
  {
    if galaxies == [] then 0 else DistancesFrom(galaxies[0], galaxies[1..]) + Distances(galaxies[1..])
  }

  /** The distances over every ordered pair of `outer` and `inner`. */
  function Cross(outer: seq<Galaxy>, inner: seq<Galaxy>): nat
    decreases |outer|
  {
    if outer == [] then 0 else DistancesFrom(outer[0], inner) + Cross(outer[1..], inner)
  }

  /** One more galaxy in `inner` adds its distance to each of `outer`. */
  lemma {:induction false} CrossCons(outer: seq<Galaxy>, g: Galaxy, inner: seq<Galaxy>)
    ensures Cross(outer, [g] + inner) == DistancesFrom(g, outer) + Cross(outer, inner)
    decreases |outer|
  {
    if outer != [] {
      CrossCons(outer[1..], g, inner);
      assert ([g] + inner)[1..] == inner;
      DistanceMeaning(g, outer[0], g);
    }
  }

  /** `distances` counts every unordered pair of galaxies exactly once: it
      is half the sum over all ordered pairs. */
  lemma {:induction false} DistancesHalf(galaxies: seq<Galaxy>)
    ensures 2 * Distances(galaxies) == Cross(galaxies, galaxies)
    decreases |galaxies|
  {
    if galaxies != [] {
      var g, rest := galaxies[0], galaxies[1..];
      HeadTail(galaxies);
      DistancesHalf(rest);
      CrossCons(rest, g, rest);
      DistanceMeaning(g, g, g);
      assert DistancesFrom(g, [g] + rest) == DistancesFrom(g, rest) by {
        assert ([g] + rest)[1..] == rest;
      }
    }
  }

  /** `part01`: the distances once every empty row and column is doubled. */
  method Part01(data: string) returns (r: nat)
    ensures r == Distances(Expand(Lines(data), 2))
  {
    var galaxies := ParseData(data, 2);
    r := Distances(galaxies);
  }

  /** `part02`: the distances once every empty row and column is a million
      times as wide. */
  method Part02(data: string) returns (r: nat)
    ensures r == Distances(Expand(Lines(data), 1_000_000))
  {
    var galaxies := ParseData(data, 1_000_000);
    r := Distances(galaxies);
  }
}
