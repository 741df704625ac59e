/** The maze map of day10/src/main.rs (`parser`, `Data`): every row is
    scanned for the start marker, its horizontal pipes and its corners, the
    rows are cut into columns, and every column is scanned for its vertical
    pipes. The pieces are filed by cell in a map, a later piece replacing an
    earlier one under the same key. */
module Day10Topology {

  import opened Parsing
  import opened Day10Elements
  import opened Day10Tokenizer

  /** `Data`: the start marker's cell and the maze pieces keyed by cell. */
  datatype Maze = Maze(start: Position, elements: map<Position, Element>)

  /** The cell `parser` files a piece under: a pipe's start, a corner's cell. */
  function KeyOf(e: Element): Position
  {
    match e
    case PipeElement(p) => p.start
    case CornerElement(c) => c.position
    case StartElement(s) => s
  }

  function PipePieces(pipes: seq<Pipe>): (r: seq<Element>)
    ensures |r| == |pipes| && forall i :: 0 <= i < |pipes| ==> r[i] == PipeElement(pipes[i])
  {
    seq(|pipes|, i requires 0 <= i < |pipes| => PipeElement(pipes[i]))
  }

  function CornerPieces(corners: seq<Corner>): (r: seq<Element>)
    ensures |r| == |corners| && forall i :: 0 <= i < |corners| ==> r[i] == CornerElement(corners[i])
  {
    seq(|corners|, i requires 0 <= i < |corners| => CornerElement(corners[i]))
  }

  // ---------------------------------------------------------------------
  // `HashMap::insert`, one piece after another.

  /** The map after inserting `pieces[i..]` in order. */
  function Insert(m: map<Position, Element>, pieces: seq<Element>, i: nat): map<Position, Element>
    requires i <= |pieces|
    decreases |pieces| - i
  {
    if i == |pieces| then m else Insert(m[KeyOf(pieces[i]) := pieces[i]], pieces, i + 1)
  }

  /** The last of `pieces[i..]` filed under `p`. */
  function LastKeyed(pieces: seq<Element>, p: Position, i: nat): (r: Option<Element>)
    requires i <= |pieces|
    ensures r.Some? ==> KeyOf(r.value) == p && r.value in pieces[i..]
    decreases |pieces| - i
  {
    if i == |pieces| then None
    else
      var later := LastKeyed(pieces, p, i + 1);
      if later.Some? then later
      else if KeyOf(pieces[i]) == p then Some(pieces[i])
      else None
  }

  /** Inserting in order leaves under every key the last piece filed there,
      and the old entry where no piece was. */
  lemma {:induction false} InsertLookup(m: map<Position, Element>, pieces: seq<Element>, i: nat, p: Position)
    requires i <= |pieces|
    ensures var r := Insert(m, pieces, i);
            var last := LastKeyed(pieces, p, i);
            (p in r <==> p in m || last.Some?) &&
            (p in r ==> r[p] == if last.Some? then last.value else m[p])
    decreases |pieces| - i
  {
    if i < |pieces| {
      InsertLookup(m[KeyOf(pieces[i]) := pieces[i]], pieces, i + 1, p);
    }
  }

  /** The `for ... { elements.insert(...) }` loops of `parser`. */
  method InsertPieces(m: map<Position, Element>, pieces: seq<Element>) returns (r: map<Position, Element>)
    ensures r == Insert(m, pieces, 0)
  {
    r := m;
    var i := 0;
    while i < |pieces|
      invariant 0 <= i <= |pieces|
      invariant Insert(r, pieces, i) == Insert(m, pieces, 0)
    {
      r := r[KeyOf(pieces[i]) := pieces[i]];
      i := i + 1;
    }
  }

  // ---------------------------------------------------------------------
  // The row phase of `parser`.

  /** The character count of the first line, 0 for an empty text. */
  function Width(rows: seq<string>): nat
  {
    if rows == [] then 0 else |rows[0]|
  }

  /** Appending `row[i..]` to the columns, character `j` to column `j`;
      `None` where a row is longer than there are columns and the index
      panics. */
  function PushChars(columns: seq<string>, row: string, i: nat): Option<seq<string>>
    requires i <= |row|
    decreases |row| - i
  {
    if i == |row| then Some(columns)
    else if i >= |columns| then None
    else PushChars(columns[i := columns[i] + [row[i]]], row, i + 1)
  }

  /** What `parser` has built after some rows. */
  datatype RowsState = RowsState(start: Position, elements: map<Position, Element>, columns: seq<string>)

  /** One iteration of the row loop of `parser` on row `y`. */
  function RowStep(st: RowsState, y: nat, row: string): Option<RowsState>
  {
    var pushed := PushChars(st.columns, row, 0);
    if pushed.None? then None
    else
      var scan := ScanRow(y, row, 0, RowScan(None, [], []));
      if scan.None? then None
      else
        var start := if scan.value.start.Some? then scan.value.start.value else st.start;
        var m := Insert(Insert(st.elements, PipePieces(scan.value.pipes), 0), CornerPieces(scan.value.corners), 0);
        Some(RowsState(start, m, pushed.value))
  }

  /** The row loop from row `y` on. */
  function ScanRows(rows: seq<string>, y: nat, st: RowsState): Option<RowsState>
    requires y <= |rows|
    decreases |rows| - y
  {
    if y == |rows| then Some(st)
    else
      var next := RowStep(st, y, rows[y]);
      if next.None? then None else ScanRows(rows, y + 1, next.value)
  }

  /** The column loop from column `x` on. */
  function ScanColumns(columns: seq<string>, x: nat, m: map<Position, Element>): Option<map<Position, Element>>
    requires x <= |columns|
    decreases |columns| - x
  {
    if x == |columns| then Some(m)
    else
      var pipes := ScanColumn(x, columns[x], 0, []);
      if pipes.None? then None else ScanColumns(columns, x + 1, Insert(m, PipePieces(pipes.value), 0))
  }

  /** The state `parser` starts from: no start marker seen, the start at
      (-1, -1), no pieces and one empty column per character of the first
      line. */
  function InitialRows(width: nat): RowsState
  {
    RowsState(Position(-1, -1), map[], seq(width, _ => ""))
  }

  /** `parser` of a whole text; `None` where it panics. */
  function Build(text: string): Option<Maze>
  {
    var rows := Lines(text);
    var done := ScanRows(rows, 0, InitialRows(Width(rows)));
    if done.None? then None
    else
      var m := ScanColumns(done.value.columns, 0, done.value.elements);
      if m.None? then None else Some(Maze(done.value.start, m.value))
  }

  lemma PushCharsStep(columns: seq<string>, row: string, i: nat)
    requires i < |row|
    ensures PushChars(columns, row, i) ==
      if i >= |columns| then None else PushChars(columns[i := columns[i] + [row[i]]], row, i + 1)
  {
  }

  lemma ScanRowsStep(rows: seq<string>, y: nat, st: RowsState)
    requires y < |rows|
    ensures ScanRows(rows, y, st) ==
      if RowStep(st, y, rows[y]).None? then None else ScanRows(rows, y + 1, RowStep(st, y, rows[y]).value)
  {
  }

  lemma ScanColumnsStep(columns: seq<string>, x: nat, m: map<Position, Element>)
    requires x < |columns|
    ensures ScanColumns(columns, x, m) ==
      var pipes := ScanColumn(x, columns[x], 0, []);
      if pipes.None? then None else ScanColumns(columns, x + 1, Insert(m, PipePieces(pipes.value), 0))
  {
  }

  /** `parser`. */
  method Parser(text: string) returns (r: Option<Maze>)
    ensures r == Build(text)
  {
    var rows := Lines(text);
    var width := if rows == [] then 0 else |rows[0]|;
    var columns: seq<string> := seq(width, _ => "");
    var startPosition := Position(-1, -1);
    var elements: map<Position, Element> := map[];
    ghost var done := ScanRows(rows, 0, InitialRows(width));
    var y := 0;
    while y < |rows|
      invariant 0 <= y <= |rows|
      invariant ScanRows(rows, y, RowsState(startPosition, elements, columns)) == done
    {
      ScanRowsStep(rows, y, RowsState(startPosition, elements, columns));
      var row := rows[y];
      ghost var pushed := PushChars(columns, row, 0);
      var index := 0;
      while index < |row|
        invariant 0 <= index <= |row|
        invariant PushChars(columns, row, index) == pushed
      {
        PushCharsStep(columns, row, index);
        if index >= |columns| {
          return None;
        }
        columns := columns[index := columns[index] + [row[index]]];
        index := index + 1;
      }
      var scan := ParseRow(y, row);
      if scan.None? {
        return None;
      }
      if scan.value.start.Some? {
        startPosition := scan.value.start.value;
      }
      elements := InsertPieces(elements, PipePieces(scan.value.pipes));
      elements := InsertPieces(elements, CornerPieces(scan.value.corners));
      y := y + 1;
    }
    assert done.Some?;
    ghost var built := ScanColumns(columns, 0, elements);
    var x := 0;
    while x < |columns|
      invariant 0 <= x <= |columns|
      invariant ScanColumns(columns, x, elements) == built
    {
      ScanColumnsStep(columns, x, elements);
      var pipes := ParseColumn(x, columns[x]);
      if pipes.None? {
        return None;
      }
      elements := InsertPieces(elements, PipePieces(pipes.value));
      x := x + 1;
    }
    return Some(Maze(startPosition, elements));
  }

  // ---------------------------------------------------------------------
  // When `parser` panics.

  predicate AllMaze(s: string)
  {
    forall i :: 0 <= i < |s| ==> IsMazeChar(s[i])
  }

  /** A text `parser` accepts: no line longer than the first, and nothing
      but maze characters. */
  predicate Drawable(rows: seq<string>)
  {
    forall y :: 0 <= y < |rows| ==> |rows[y]| <= Width(rows) && AllMaze(rows[y])
  }

  predicate ColumnsMaze(columns: seq<string>)
  {
    forall x :: 0 <= x < |columns| ==> AllMaze(columns[x])
  }

  /** Pushing a row onto the columns fails exactly when the row is longer
      than there are columns, and otherwise appends character `j` of the row
      to column `j`. */
  lemma {:induction false} PushCharsMeans(columns: seq<string>, row: string, i: nat)
    requires i <= |row|
    ensures PushChars(columns, row, i).Some? <==> i == |row| || |row| <= |columns|
    ensures PushChars(columns, row, i).Some? ==>
      var r := PushChars(columns, row, i).value;
      |r| == |columns| &&
      forall j :: 0 <= j < |columns| ==> r[j] == if i <= j < |row| then columns[j] + [row[j]] else columns[j]
    decreases |row| - i
  {
    if i < |row| && i < |columns| {
      PushCharsMeans(columns[i := columns[i] + [row[i]]], row, i + 1);
    }
  }

  lemma PushCharsMaze(columns: seq<string>, row: string)
    requires ColumnsMaze(columns) && AllMaze(row)
    ensures PushChars(columns, row, 0).Some? ==> ColumnsMaze(PushChars(columns, row, 0).value)
  {
    PushCharsMeans(columns, row, 0);
    if PushChars(columns, row, 0).Some? {
      var r := PushChars(columns, row, 0).value;
      forall x | 0 <= x < |r|
        ensures AllMaze(r[x])
      {
        assert AllMaze(columns[x]);
      }
    }
  }

  lemma RowMaze(y: nat, row: string)
    ensures ScanRow(y, row, 0, RowScan(None, [], [])).Some? <==> AllMaze(row)
  {
    ScanRowFails(y, row, 0, RowScan(None, [], []));
    AllMazeFromMeans(row, 0);
  }

  /** The row loop fails exactly on a row longer than the columns or a row
      with a character that draws nothing; it keeps the number of columns,
      and columns of maze characters. */
  lemma {:induction false} ScanRowsFails(rows: seq<string>, y: nat, st: RowsState)
    requires y <= |rows|
    ensures ScanRows(rows, y, st).Some? <==>
      forall k :: y <= k < |rows| ==> |rows[k]| <= |st.columns| && AllMaze(rows[k])
    ensures ScanRows(rows, y, st).Some? ==> |ScanRows(rows, y, st).value.columns| == |st.columns|
    ensures ScanRows(rows, y, st).Some? && ColumnsMaze(st.columns) ==> ColumnsMaze(ScanRows(rows, y, st).value.columns)
    decreases |rows| - y
  {
    if y < |rows| {
      PushCharsMeans(st.columns, rows[y], 0);
      RowMaze(y, rows[y]);
      var next := RowStep(st, y, rows[y]);
      if next.Some? {
        if ColumnsMaze(st.columns) {
          PushCharsMaze(st.columns, rows[y]);
        }
        ScanRowsFails(rows, y + 1, next.value);
      }
    }
  }

  /** The column loop never fails on columns of maze characters. */
  lemma {:induction false} ScanColumnsSucceed(columns: seq<string>, x: nat, m: map<Position, Element>)
    requires x <= |columns| && ColumnsMaze(columns)
    ensures ScanColumns(columns, x, m).Some?
    decreases |columns| - x
  {
    if x < |columns| {
      ScanColumnMeaning(x, columns[x], 0, []);
      AllMazeFromMeans(columns[x], 0);
      assert AllMaze(columns[x]);
      var pipes := ScanColumn(x, columns[x], 0, []);
      ScanColumnsSucceed(columns, x + 1, Insert(m, PipePieces(pipes.value), 0));
    }
  }

  /** `parser` panics exactly when a line is longer than the first or holds
      a character that draws no maze piece. */
  lemma BuildFails(text: string)
    ensures Build(text).Some? <==> Drawable(Lines(text))
  {
    var rows := Lines(text);
    var init := InitialRows(Width(rows));
    ScanRowsFails(rows, 0, init);
    var done := ScanRows(rows, 0, init);
    if done.Some? {
      ScanColumnsSucceed(done.value.columns, 0, done.value.elements);
    }
  }

  // ---------------------------------------------------------------------
  // The start marker.

  /** The start marker `parser` keeps from `rows[..k]`: the last `S` of the
      last of those rows that has one, or (-1, -1) when none has. */
  function StartIn(rows: seq<string>, k: nat): Position
    requires k <= |rows|
  {
    if k == 0 then Position(-1, -1)
    else
      var last := LastIndex(rows[k - 1], 'S', 0);
      if last.Some? then Position(last.value, k - 1) else StartIn(rows, k - 1)
  }

  /** `StartIn` is (-1, -1) exactly when there is no `S`, and otherwise an
      `S` with no other `S` after it, in its row or in a later one. */
  lemma {:induction false} StartInMeans(rows: seq<string>, k: nat)
    requires k <= |rows|
    ensures var p := StartIn(rows, k);
      (p == Position(-1, -1) <==> forall y, x :: 0 <= y < k && 0 <= x < |rows[y]| ==> rows[y][x] != 'S') &&
      (p != Position(-1, -1) ==>
         0 <= p.y < k && 0 <= p.x < |rows[p.y]| && rows[p.y][p.x] == 'S' &&
         (forall x :: p.x < x < |rows[p.y]| ==> rows[p.y][x] != 'S') &&
         (forall y, x :: p.y < y < k && 0 <= x < |rows[y]| ==> rows[y][x] != 'S'))
  {
    if k > 0 {
      LastIndexMeans(rows[k - 1], 'S', 0);
      StartInMeans(rows, k - 1);
    }
  }

  lemma {:induction false} ScanRowsStart(rows: seq<string>, y: nat, st: RowsState)
    requires y <= |rows| && st.start == StartIn(rows, y)
    ensures ScanRows(rows, y, st).Some? ==> ScanRows(rows, y, st).value.start == StartIn(rows, |rows|)
    decreases |rows| - y
  {
    if y < |rows| {
      var next := RowStep(st, y, rows[y]);
      if next.Some? {
        ParseRowMeaning(y, rows[y]);
        ScanRowsStart(rows, y + 1, next.value);
      }
    }
  }

  /** `Data::start` is the last `S` of the last line with one, or (-1, -1). */
  lemma BuildStart(text: string)
    ensures var rows := Lines(text);
            Build(text).Some? ==> Build(text).value.start == StartIn(rows, |rows|)
  {
    var rows := Lines(text);
    ScanRowsStart(rows, 0, InitialRows(Width(rows)));
  }

  // ---------------------------------------------------------------------
  // On a rectangular drawing, every piece in the map is drawn at its key.

  predicate Rectangular(rows: seq<string>)
  {
    forall y :: 0 <= y < |rows| ==> |rows[y]| == Width(rows)
  }

  /** Piece `e` is filed under `p`, which is a cell of the drawing showing
      `e`'s character; it is a pipe that runs along its axis or a corner. */
  predicate Drawn(rows: seq<string>, p: Position, e: Element)
  {
    0 <= p.y < |rows| && 0 <= p.x < |rows[p.y]| && rows[p.y][p.x] == ElementGlyph(e) &&
    KeyOf(e) == p && !e.StartElement? && (e.PipeElement? ==> WellFormedPipe(e.pipe))
  }

  predicate Sound(rows: seq<string>, m: map<Position, Element>)
  {
    forall p :: p in m ==> Drawn(rows, p, m[p])
  }

  predicate AllDrawn(rows: seq<string>, pieces: seq<Element>)
  {
    forall j :: 0 <= j < |pieces| ==> Drawn(rows, KeyOf(pieces[j]), pieces[j])
  }

  lemma {:induction false} InsertSound(rows: seq<string>, m: map<Position, Element>, pieces: seq<Element>, i: nat)
    requires i <= |pieces| && Sound(rows, m) && AllDrawn(rows, pieces)
    ensures Sound(rows, Insert(m, pieces, i))
    decreases |pieces| - i
  {
    if i < |pieces| {
      InsertSound(rows, m[KeyOf(pieces[i]) := pieces[i]], pieces, i + 1);
    }
  }

  /** The pipes of the `-` runs of row `y` from column `x` on are drawn. */
  lemma {:induction false} HorizontalDrawn(rows: seq<string>, y: nat, x: nat)
    requires y < |rows| && x <= |rows[y]|
    ensures AllDrawn(rows, PipePieces(HorizontalPipes(RunsOf(rows[y], '-', x), y)))
    decreases |rows[y]| - x
  {
    var line := rows[y];
    if x < |line| {
      if line[x] != '-' {
        HorizontalDrawn(rows, y, x + 1);
      } else {
        var n := RunFrom(line, x, '-');
        RunFromMeans(line, x, '-');
        HorizontalDrawn(rows, y, x + n);
        var runs := RunsOf(line, '-', x);
        assert runs[1..] == RunsOf(line, '-', x + n);
        assert line[x + n - 1] == '-';
      }
    }
  }

  /** The corners of row `y` from column `x` on are drawn. */
  lemma {:induction false} CornersDrawn(rows: seq<string>, y: nat, x: nat)
    requires y < |rows| && x <= |rows[y]|
    ensures AllDrawn(rows, CornerPieces(CornersOf(rows[y], y, x)))
    decreases |rows[y]| - x
  {
    if x < |rows[y]| {
      CornersDrawn(rows, y, x + 1);
    }
  }

  /** Column `x` as the row loop leaves it after `y` rows of a rectangular
      drawing: its first `y` characters, top to bottom. */
  predicate ColumnsSoFar(rows: seq<string>, y: nat, columns: seq<string>)
  {
    |columns| == Width(rows) &&
    forall x :: 0 <= x < |columns| ==> |columns[x]| == y && forall k :: 0 <= k < y ==> k < |rows| && x < |rows[k]| && columns[x][k] == rows[k][x]
  }

  /** `column` is column `x` of the drawing, top to bottom. */
  predicate IsColumn(rows: seq<string>, x: nat, column: string)
  {
    |column| == |rows| && forall k :: 0 <= k < |rows| ==> x < |rows[k]| && column[k] == rows[k][x]
  }

  /** The pipes of the `|` runs of column `x` from row `k` on are drawn. */
  lemma {:induction false} VerticalDrawn(rows: seq<string>, column: string, x: nat, k: nat)
    requires IsColumn(rows, x, column) && k <= |column|
    ensures AllDrawn(rows, PipePieces(VerticalPipes(RunsOf(column, '|', k), x)))
    decreases |column| - k
  {
    if k < |column| {
      if column[k] != '|' {
        VerticalDrawn(rows, column, x, k + 1);
      } else {
        var n := RunFrom(column, k, '|');
        RunFromMeans(column, k, '|');
        VerticalDrawn(rows, column, x, k + n);
        var runs := RunsOf(column, '|', k);
        assert runs[1..] == RunsOf(column, '|', k + n);
        assert column[k + n - 1] == '|';
      }
    }
  }

  /** Pushing row `y` of a rectangular drawing extends every column by its
      character of that row. */
  lemma PushSoFar(rows: seq<string>, y: nat, columns: seq<string>)
    requires Rectangular(rows) && y < |rows| && ColumnsSoFar(rows, y, columns)
    ensures PushChars(columns, rows[y], 0).Some?
    ensures ColumnsSoFar(rows, y + 1, PushChars(columns, rows[y], 0).value)
  {
    PushCharsMeans(columns, rows[y], 0);
    var r := PushChars(columns, rows[y], 0).value;
    forall x | 0 <= x < |r|
      ensures |r[x]| == y + 1 && forall k :: 0 <= k < y + 1 ==> k < |rows| && x < |rows[k]| && r[x][k] == rows[k][x]
    {
      assert r[x] == columns[x] + [rows[y][x]];
    }
  }

  /** The row loop on a rectangular drawing files only drawn pieces, and
      leaves the columns of the drawing. */
  lemma {:induction false} ScanRowsSound(rows: seq<string>, y: nat, st: RowsState)
    requires Rectangular(rows) && y <= |rows|
    requires Sound(rows, st.elements) && ColumnsSoFar(rows, y, st.columns)
    ensures ScanRows(rows, y, st).Some? ==>
      Sound(rows, ScanRows(rows, y, st).value.elements) && ColumnsSoFar(rows, |rows|, ScanRows(rows, y, st).value.columns)
    decreases |rows| - y
  {
    if y < |rows| {
      var next := RowStep(st, y, rows[y]);
      if next.Some? {
        PushSoFar(rows, y, st.columns);
        ParseRowMeaning(y, rows[y]);
        var scan := ScanRow(y, rows[y], 0, RowScan(None, [], [])).value;
        HorizontalDrawn(rows, y, 0);
        CornersDrawn(rows, y, 0);
        var m := Insert(st.elements, PipePieces(scan.pipes), 0);
        InsertSound(rows, st.elements, PipePieces(scan.pipes), 0);
        InsertSound(rows, m, CornerPieces(scan.corners), 0);
        ScanRowsSound(rows, y + 1, next.value);
      }
    }
  }

  /** The column loop on the columns of a drawing files only drawn pipes. */
  lemma {:induction false} ScanColumnsSound(rows: seq<string>, columns: seq<string>, x: nat, m: map<Position, Element>)
    requires x <= |columns| && ColumnsSoFar(rows, |rows|, columns) && Sound(rows, m)
    ensures ScanColumns(columns, x, m).Some? ==> Sound(rows, ScanColumns(columns, x, m).value)
    decreases |columns| - x
  {
    if x < |columns| {
      var pipes := ScanColumn(x, columns[x], 0, []);
      if pipes.Some? {
        ParseColumnMeaning(x, columns[x]);
        assert IsColumn(rows, x, columns[x]);
        VerticalDrawn(rows, columns[x], x, 0);
        InsertSound(rows, m, PipePieces(pipes.value), 0);
        ScanColumnsSound(rows, columns, x + 1, Insert(m, PipePieces(pipes.value), 0));
      }
    }
  }

  /** On a rectangular drawing, every entry of `Data::elements` is a pipe
      or a corner filed under a cell that shows it: a pipe under its
      start, a corner under its own cell. */
  lemma BuildSound(text: string)
    requires Rectangular(Lines(text))
    ensures Build(text).Some? ==> Sound(Lines(text), Build(text).value.elements)
  {
    var rows := Lines(text);
    var init := InitialRows(Width(rows));
    ScanRowsSound(rows, 0, init);
    var done := ScanRows(rows, 0, init);
    if done.Some? {
      ScanColumnsSound(rows, done.value.columns, 0, done.value.elements);
    }
  }

  // ---------------------------------------------------------------------
  // Every corner of the drawing is in the map.

  /** Inserting never removes a key. */
  lemma InsertKeeps(m: map<Position, Element>, pieces: seq<Element>, p: Position)
    requires p in m
    ensures p in Insert(m, pieces, 0)
  {
    InsertLookup(m, pieces, 0, p);
  }

  /** A piece of `pieces[i..]` is filed by the insertion. */
  lemma {:induction false} InsertFiles(m: map<Position, Element>, pieces: seq<Element>, i: nat, j: nat)
    requires i <= j < |pieces|
    ensures KeyOf(pieces[j]) in Insert(m, pieces, i)
    decreases |pieces| - i
  {
    if i < j {
      InsertFiles(m[KeyOf(pieces[i]) := pieces[i]], pieces, i + 1, j);
    } else {
      InsertLookup(m[KeyOf(pieces[i]) := pieces[i]], pieces, i + 1, KeyOf(pieces[j]));
    }
  }

  lemma {:induction false} CornersOfHas(line: string, y: int, x: nat, c: nat)
    requires x <= c < |line| && IsCornerChar(line[c])
    ensures CornerDrawnBy(line[c], Position(c, y)) in CornersOf(line, y, x)
    decreases c - x
  {
    if x < c {
      CornersOfHas(line, y, x + 1, c);
    }
  }

  /** Every corner character of `rows[..y]` is a key of `m`. */
  predicate CornersFiled(rows: seq<string>, y: nat, m: map<Position, Element>)
  {
    forall k, x :: 0 <= k < y && k < |rows| && 0 <= x < |rows[k]| && IsCornerChar(rows[k][x]) ==> Position(x, k) in m
  }

  lemma RowCornersFiled(rows: seq<string>, y: nat, m: map<Position, Element>)
    requires y < |rows| && CornersFiled(rows, y, m)
    requires ScanRow(y, rows[y], 0, RowScan(None, [], [])).Some?
    ensures var scan := ScanRow(y, rows[y], 0, RowScan(None, [], [])).value;
            CornersFiled(rows, y + 1, Insert(Insert(m, PipePieces(scan.pipes), 0), CornerPieces(scan.corners), 0))
  {
    var scan := ScanRow(y, rows[y], 0, RowScan(None, [], [])).value;
    var m1 := Insert(m, PipePieces(scan.pipes), 0);
    var m2 := Insert(m1, CornerPieces(scan.corners), 0);
    ParseRowMeaning(y, rows[y]);
    forall k, x | 0 <= k < y + 1 && k < |rows| && 0 <= x < |rows[k]| && IsCornerChar(rows[k][x])
      ensures Position(x, k) in m2
    {
      if k < y {
        InsertKeeps(m, PipePieces(scan.pipes), Position(x, k));
        InsertKeeps(m1, CornerPieces(scan.corners), Position(x, k));
      } else {
        CornersOfHas(rows[y], y, 0, x);
        var j :| 0 <= j < |scan.corners| && scan.corners[j] == CornerDrawnBy(rows[y][x], Position(x, y));
        InsertFiles(m1, CornerPieces(scan.corners), 0, j);
      }
    }
  }

  lemma {:induction false} ScanRowsCorners(rows: seq<string>, y: nat, st: RowsState)
    requires y <= |rows| && CornersFiled(rows, y, st.elements)
    ensures ScanRows(rows, y, st).Some? ==> CornersFiled(rows, |rows|, ScanRows(rows, y, st).value.elements)
    decreases |rows| - y
  {
    if y < |rows| {
      var next := RowStep(st, y, rows[y]);
      if next.Some? {
        RowCornersFiled(rows, y, st.elements);
        ScanRowsCorners(rows, y + 1, next.value);
      }
    }
  }

  lemma {:induction false} ScanColumnsKeep(columns: seq<string>, x: nat, m: map<Position, Element>, p: Position)
    requires x <= |columns| && p in m
    ensures ScanColumns(columns, x, m).Some? ==> p in ScanColumns(columns, x, m).value
    decreases |columns| - x
  {
    if x < |columns| {
      var pipes := ScanColumn(x, columns[x], 0, []);
      if pipes.Some? {
        InsertKeeps(m, PipePieces(pipes.value), p);
        ScanColumnsKeep(columns, x + 1, Insert(m, PipePieces(pipes.value), 0), p);
      }
    }
  }

  /** A drawn corner is the corner its character shows. */
  lemma DrawnCorner(rows: seq<string>, p: Position, e: Element)
    requires Drawn(rows, p, e) && IsCornerChar(rows[p.y][p.x])
    ensures e == CornerElement(CornerDrawnBy(rows[p.y][p.x], p))
  {
  }

  /** On a rectangular drawing, every corner character is filed under its
      cell as the corner it shows: no pipe ever replaces a corner. */
  lemma BuildCorners(text: string, p: Position)
    requires Rectangular(Lines(text)) && Build(text).Some?
    requires 0 <= p.y < |Lines(text)| && 0 <= p.x < |Lines(text)[p.y]| && IsCornerChar(Lines(text)[p.y][p.x])
    ensures var m := Build(text).value.elements;
            p in m && m[p] == CornerElement(CornerDrawnBy(Lines(text)[p.y][p.x], p))
  {
    var rows := Lines(text);
    var init := InitialRows(Width(rows));
    ScanRowsCorners(rows, 0, init);
    var done := ScanRows(rows, 0, init).value;
    assert p == Position(p.x, p.y);
    ScanColumnsKeep(done.columns, 0, done.elements, p);
    BuildSound(text);
    DrawnCorner(rows, p, Build(text).value.elements[p]);
  }
}
