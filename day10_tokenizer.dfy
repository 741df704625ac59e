/** The row and column scanners of the pipe maze (day10/src/main.rs,
    `map_data`, `parse_row`, `parse_column`). A line is cut into tokens:
    a maximal run of `.`, `-` or `|`, or a single `S`, `7`, `J`, `L`, `F`.
    Any other character makes the source's `unwrap` panic, which the model
    returns as `None`. */
module Day10Tokenizer {

  import opened Parsing
  import opened Day10Elements

  datatype DataType =
    | Start
    | Ground
    | Horizontal
    | Vertical
    | SouthWestCorner
    | NorthWestCorner
    | NorthEastCorner
    | SouthEastCorner

  /** The characters a maze is drawn with. */
  predicate IsMazeChar(c: char)
  {
    c == '.' || c == 'S' || c == '-' || c == '|' || c == '7' || c == 'J' || c == 'L' || c == 'F'
  }

  predicate IsCornerChar(c: char)
  {
    c == '7' || c == 'J' || c == 'L' || c == 'F'
  }

  /** The token kind a maze character starts. */
  function KindOf(c: char): DataType
    requires IsMazeChar(c)
  {
    match c
    case '.' => Ground
    case 'S' => Start
    case '-' => Horizontal
    case '|' => Vertical
    case '7' => SouthWestCorner
    case 'J' => NorthWestCorner
    case 'L' => NorthEastCorner
    case 'F' => SouthEastCorner
  }

  /** Kinds read as a maximal run (`many1`) rather than as one character. */
  predicate IsRunKind(k: DataType)
  {
    k == Ground || k == Horizontal || k == Vertical
  }

  predicate IsCornerKind(k: DataType)
  {
    k == SouthWestCorner || k == NorthWestCorner || k == NorthEastCorner || k == SouthEastCorner
  }

  /** `value(kind, many1(char(c)))`. */
  function RunToken(c: char, kind: DataType, s: string): (r: Parsed<DataType>)
    ensures r.Success? <==> s != [] && s[0] == c
    ensures r.Success? ==> r.value == kind && r.rest == s[RunLength(s, c)..]
  {
    var n := RunLength(s, c);
    if n == 0 then Failure else Success(kind, s[n..])
  }

  /** `value(kind, char(c))`. */
  function SingleToken(c: char, kind: DataType, s: string): (r: Parsed<DataType>)
    ensures r.Success? <==> s != [] && s[0] == c
    ensures r.Success? ==> r.value == kind && r.rest == s[1..]
  {
    var t := Char(c, s);
    if t.Failure? then Failure else Success(kind, t.rest)
  }

  /** How many characters the token at the head of `s` covers. */
  function TokenLength(s: string): (n: nat)
    requires s != [] && IsMazeChar(s[0])
    ensures 1 <= n <= |s|
  {
    if IsRunKind(KindOf(s[0])) then RunLength(s, s[0]) else 1
  }

  /** One branch of an `alt`: `value(kind, many1(char(c)))` or
      `value(kind, char(c))`. */
  datatype Alternative = Many1(c: char, kind: DataType) | Single(c: char, kind: DataType)

  function Attempt(a: Alternative, s: string): (r: Parsed<DataType>)
    ensures r.Success? <==> s != [] && s[0] == a.c
  {
    match a
    case Many1(c, kind) => RunToken(c, kind, s)
    case Single(c, kind) => SingleToken(c, kind, s)
  }

  /** `alt`: the first alternative that succeeds. */
  function Alt(alternatives: seq<Alternative>, s: string): Parsed<DataType>
  {
    if alternatives == [] then Failure
    else
      var r := Attempt(alternatives[0], s);
      if r.Success? then r else Alt(alternatives[1..], s)
  }

  lemma {:induction false} AltPicksFirstMatch(alternatives: seq<Alternative>, s: string, i: nat)
    requires i < |alternatives| && s != [] && s[0] == alternatives[i].c
    requires forall j :: 0 <= j < i ==> alternatives[j].c != s[0]
    ensures Alt(alternatives, s) == Attempt(alternatives[i], s)
    decreases i
  {
    if i > 0 {
      AltPicksFirstMatch(alternatives[1..], s, i - 1);
    }
  }

  lemma {:induction false} AltFailsWithoutMatch(alternatives: seq<Alternative>, s: string)
    requires s == [] || forall j :: 0 <= j < |alternatives| ==> alternatives[j].c != s[0]
    ensures Alt(alternatives, s).Failure?
    decreases |alternatives|
  {
    if alternatives != [] {
      AltFailsWithoutMatch(alternatives[1..], s);
    }
  }

  /** The branches of `map_data`, in the source's order. */
  const MapDataAlternatives: seq<Alternative> := [
    Many1('.', Ground), Single('S', Start), Many1('-', Horizontal), Many1('|', Vertical),
    Single('7', SouthWestCorner), Single('J', NorthWestCorner),
    Single('L', NorthEastCorner), Single('F', SouthEastCorner)]

  /** The position of the branch of `map_data` that reads `c`. */
  function BranchOf(c: char): (i: nat)
    requires IsMazeChar(c)
    ensures i < |MapDataAlternatives| && MapDataAlternatives[i] == (if IsRunKind(KindOf(c)) then Many1(c, KindOf(c)) else Single(c, KindOf(c)))
    ensures forall j :: 0 <= j < i ==> MapDataAlternatives[j].c != c
  {
    match c
    case '.' => 0
    case 'S' => 1
    case '-' => 2
    case '|' => 3
    case '7' => 4
    case 'J' => 5
    case 'L' => 6
    case 'F' => 7
  }

  /** `map_data`: succeeds exactly on a maze character, and reads a single
      character or the maximal run it starts. */
  function MapData(s: string): (r: Parsed<DataType>)
    ensures r.Success? <==> s != [] && IsMazeChar(s[0])
    ensures r.Success? ==> r.value == KindOf(s[0]) && r.rest == s[TokenLength(s)..]
  {
    if s != [] && IsMazeChar(s[0]) then
      AltPicksFirstMatch(MapDataAlternatives, s, BranchOf(s[0]));
      Alt(MapDataAlternatives, s)
    else
      AltFailsWithoutMatch(MapDataAlternatives, s);
      Alt(MapDataAlternatives, s)
  }

  /** A run token is maximal: the character after it differs. */
  lemma RunTokensAreMaximal(s: string)
    requires s != [] && IsMazeChar(s[0]) && IsRunKind(KindOf(s[0]))
    ensures TokenLength(s) < |s| ==> s[TokenLength(s)] != s[0]
  {
  }

  /** The corner a corner token at `p` stands for. */
  function CornerOf(k: DataType, p: Position): (c: Corner)
    requires IsCornerKind(k)
    ensures c.position == p
  {
    match k
    case SouthWestCorner => SouthWest(p)
    case NorthWestCorner => NorthWest(p)
    case NorthEastCorner => NorthEast(p)
    case SouthEastCorner => SouthEast(p)
  }

  /** Reading a corner's `Display` character gives back that corner, and
      a corner character drawn back gives that character. */
  lemma CornerGlyphRoundTrip(c: Corner, ch: char)
    ensures IsCornerChar(CornerGlyph(c))
    ensures MapData([CornerGlyph(c)]) == Success(KindOf(CornerGlyph(c)), [])
    ensures CornerOf(KindOf(CornerGlyph(c)), c.position) == c
    ensures IsCornerChar(ch) ==> CornerGlyph(CornerOf(KindOf(ch), c.position)) == ch
  {
  }

  // ---------------------------------------------------------------------
  // A line read by index: the length of the token at column `x`.

  /** How many characters from `x` on are `c`. */
  function RunFrom(line: string, x: nat, c: char): (n: nat)
    requires x <= |line|
    ensures x + n <= |line|
    ensures x < |line| && line[x] == c ==> n >= 1
    decreases |line| - x
  {
    if x < |line| && line[x] == c then 1 + RunFrom(line, x + 1, c) else 0
  }

  lemma {:induction false} RunFromMeans(line: string, x: nat, c: char)
    requires x <= |line|
    ensures forall i :: x <= i < x + RunFrom(line, x, c) ==> line[i] == c
    ensures x + RunFrom(line, x, c) < |line| ==> line[x + RunFrom(line, x, c)] != c
    decreases |line| - x
  {
    if x < |line| && line[x] == c {
      RunFromMeans(line, x + 1, c);
    }
  }

  lemma {:induction false} RunLengthIsRunFrom(line: string, x: nat, c: char)
    requires x <= |line|
    ensures RunLength(line[x..], c) == RunFrom(line, x, c)
    decreases |line| - x
  {
    if x < |line| && line[x] == c {
      assert line[x..][1..] == line[x + 1..];
      RunLengthIsRunFrom(line, x + 1, c);
    }
  }

  /** The length of the token at column `x`. */
  function TokenLen(line: string, x: nat): (n: nat)
    requires x < |line| && IsMazeChar(line[x])
    ensures 1 <= n && x + n <= |line|
  {
    if IsRunKind(KindOf(line[x])) then RunFrom(line, x, line[x]) else 1
  }

  /** A token is one character repeated. */
  lemma TokenUniform(line: string, x: nat)
    requires x < |line| && IsMazeChar(line[x])
    ensures forall i :: x <= i < x + TokenLen(line, x) ==> line[i] == line[x]
  {
    RunFromMeans(line, x, line[x]);
  }

  /** `map_data` on the rest of a line from column `x` reads the token
      `TokenLen` measures. */
  lemma MapDataAt(line: string, x: nat)
    requires x < |line|
    ensures MapData(line[x..]).Success? <==> IsMazeChar(line[x])
    ensures IsMazeChar(line[x]) ==>
      MapData(line[x..]) == Success(KindOf(line[x]), line[x + TokenLen(line, x)..])
  {
    if IsMazeChar(line[x]) {
      var s := line[x..];
      RunLengthIsRunFrom(line, x, line[x]);
      assert TokenLength(s) == TokenLen(line, x);
      assert s[TokenLength(s)..] == line[x + TokenLen(line, x)..];
    }
  }

  // ---------------------------------------------------------------------
  // `parse_row`.

  /** The results of `parse_row`: the start marker position, the pipes and
      the corners found so far. */
  datatype RowScan = RowScan(start: Option<Position>, pipes: seq<Pipe>, corners: seq<Corner>)

  /** What one token of `len` characters at column `x` of row `y` adds: a
      horizontal run gives an eastbound and a westbound pipe. */
  function RecordRow(acc: RowScan, kind: DataType, x: int, len: int, y: int): RowScan
  {
    var start := Position(x, y);
    var end := Position(x + len - 1, y);
    match kind
    case Start => acc.(start := Some(start))
    case Horizontal => acc.(pipes := acc.pipes + [Pipe(start, end, East), Pipe(end, start, West)])
    case SouthWestCorner => acc.(corners := acc.corners + [SouthWest(start)])
    case NorthWestCorner => acc.(corners := acc.corners + [NorthWest(start)])
    case NorthEastCorner => acc.(corners := acc.corners + [NorthEast(start)])
    case SouthEastCorner => acc.(corners := acc.corners + [SouthEast(start)])
    case _ => acc
  }

  /** The row scan from column `x` on, token by token; `None` where the
      source's `unwrap` panics. */
  function ScanRow(y: int, line: string, x: nat, acc: RowScan): Option<RowScan>
    requires x <= |line|
    decreases |line| - x
  {
    if x == |line| then Some(acc)
    else if !IsMazeChar(line[x]) then None
    else
      var len := TokenLen(line, x);
      ScanRow(y, line, x + len, RecordRow(acc, KindOf(line[x]), x, len, y))
  }

  /** The `map_data` call of `parse_row` and `parse_column` on the rest of
      a line from column `x`: it fails on a character that draws nothing,
      and otherwise reads the token `TokenLen` measures. */
  method ReadToken(line: string, x: nat, rest: string) returns (token: Parsed<DataType>)
    requires x < |line| && rest == line[x..]
    ensures token.Success? <==> IsMazeChar(line[x])
    ensures token.Success? ==>
      token.value == KindOf(line[x]) && token.rest == line[x + TokenLen(line, x)..]
  {
    MapDataAt(line, x);
    token := MapData(rest);
  }

  lemma ScanRowStep(y: int, line: string, x: nat, acc: RowScan)
    requires x < |line|
    ensures !IsMazeChar(line[x]) ==> ScanRow(y, line, x, acc).None?
    ensures IsMazeChar(line[x]) ==>
      var len := TokenLen(line, x);
      ScanRow(y, line, x, acc) == ScanRow(y, line, x + len, RecordRow(acc, KindOf(line[x]), x, len, y))
  {
  }

  /** `parse_row`. */
  method ParseRow(y: int, line: string) returns (r: Option<RowScan>)
    ensures r == ScanRow(y, line, 0, RowScan(None, [], []))
  {
    var lineLen := |line|;
    var rest := line;
    var startPosition: Option<Position> := None;
    var pipes: seq<Pipe> := [];
    var corners: seq<Corner> := [];
    var x := 0;
    ghost var scan := ScanRow(y, line, 0, RowScan(None, [], []));
    while rest != []
      invariant 0 <= x <= |line| && rest == line[x..]
      invariant ScanRow(y, line, x, RowScan(startPosition, pipes, corners)) == scan
      decreases |rest|
    {
      ScanRowStep(y, line, x, RowScan(startPosition, pipes, corners));
      var token := ReadToken(line, x, rest);
      if token.Failure? {
        return None;
      }
      var len := |rest| - |token.rest|;
      var offset := lineLen - |token.rest|;
      var next := RecordRow(RowScan(startPosition, pipes, corners), token.value, x, len, y);
      startPosition, pipes, corners := next.start, next.pipes, next.corners;
      rest := token.rest;
      x := offset;
    }
    return Some(RowScan(startPosition, pipes, corners));
  }

  // ---------------------------------------------------------------------
  // `parse_column`.

  /** What one token of `len` characters at row `y` of column `x` adds: a
      vertical run gives a southbound and a northbound pipe. */
  function RecordColumn(acc: seq<Pipe>, kind: DataType, x: int, y: int, len: int): seq<Pipe>
  {
    var start := Position(x, y);
    var end := Position(x, y + len - 1);
    if kind == Vertical then acc + [Pipe(start, end, South), Pipe(end, start, North)] else acc
  }

  /** The column scan from row `y` on; `None` where the source panics. */
  function ScanColumn(x: int, column: string, y: nat, acc: seq<Pipe>): Option<seq<Pipe>>
    requires y <= |column|
    decreases |column| - y
  {
    if y == |column| then Some(acc)
    else if !IsMazeChar(column[y]) then None
    else
      var len := TokenLen(column, y);
      ScanColumn(x, column, y + len, RecordColumn(acc, KindOf(column[y]), x, y, len))
  }

  lemma ScanColumnStep(x: int, column: string, y: nat, acc: seq<Pipe>)
    requires y < |column|
    ensures !IsMazeChar(column[y]) ==> ScanColumn(x, column, y, acc).None?
    ensures IsMazeChar(column[y]) ==>
      var len := TokenLen(column, y);
      ScanColumn(x, column, y, acc) == ScanColumn(x, column, y + len, RecordColumn(acc, KindOf(column[y]), x, y, len))
  {
  }

  /** `parse_column`. */
  method ParseColumn(x: int, column: string) returns (r: Option<seq<Pipe>>)
    ensures r == ScanColumn(x, column, 0, [])
  {
    var columnLen := |column|;
    var rest := column;
    var pipes: seq<Pipe> := [];
    var y := 0;
    ghost var scan := ScanColumn(x, column, 0, []);
    while rest != []
      invariant 0 <= y <= |column| && rest == column[y..]
      invariant ScanColumn(x, column, y, pipes) == scan
      decreases |rest|
    {
      ScanColumnStep(x, column, y, pipes);
      var token := ReadToken(column, y, rest);
      if token.Failure? {
        return None;
      }
      var len := |rest| - |token.rest|;
      var offset := columnLen - |token.rest|;
      pipes := RecordColumn(pipes, token.value, x, y, len);
      rest := token.rest;
      y := offset;
    }
    return Some(pipes);
  }

  // ---------------------------------------------------------------------
  // Reference descriptions of a line, character by character.

  /** Every character of `line` from `x` on draws a maze piece. */
  predicate AllMazeFrom(line: string, x: nat)
    requires x <= |line|
    decreases |line| - x
  {
    x == |line| || (IsMazeChar(line[x]) && AllMazeFrom(line, x + 1))
  }

  lemma {:induction false} AllMazeFromMeans(line: string, x: nat)
    requires x <= |line|
    ensures AllMazeFrom(line, x) <==> forall i :: x <= i < |line| ==> IsMazeChar(line[i])
    decreases |line| - x
  {
    if x < |line| {
      AllMazeFromMeans(line, x + 1);
    }
  }

  /** The maximal runs of `c` in `line` at or after `x`, as inclusive
      `(first, last)` index pairs, left to right. */
  function RunsOf(line: string, c: char, x: nat): seq<(nat, nat)>
    requires x <= |line|
    decreases |line| - x
  {
    if x == |line| then []
    else if line[x] != c then RunsOf(line, c, x + 1)
    else
      var n := RunFrom(line, x, c);
      [(x, x + n - 1)] + RunsOf(line, c, x + n)
  }

  /** `line[a..b]` (inclusive) is made of `c` and cannot be extended on
      either side without leaving `line[x..]` or meeting another character. */
  predicate IsMaximalRun(line: string, c: char, a: int, b: int, x: nat)
  {
    x <= a <= b < |line| &&
    (forall i :: a <= i <= b ==> line[i] == c) &&
    (a == x || line[a - 1] != c) &&
    (b + 1 == |line| || line[b + 1] != c)
  }

  /** `RunsOf` lists exactly the maximal runs. */
  lemma {:induction false} RunsOfMaximal(line: string, c: char, x: nat, a: int, b: int)
    requires x <= |line|
    ensures (a, b) in RunsOf(line, c, x) <==> IsMaximalRun(line, c, a, b, x)
    decreases |line| - x
  {
    if x == |line| {
    } else if line[x] != c {
      RunsOfMaximal(line, c, x + 1, a, b);
      if a == x + 1 {
        assert line[a - 1] != c;
      }
    } else {
      var n := RunFrom(line, x, c);
      RunFromMeans(line, x, c);
      RunsOfMaximal(line, c, x + n, a, b);
      if (a, b) == (x, x + n - 1) {
        assert IsMaximalRun(line, c, a, b, x);
      } else if IsMaximalRun(line, c, a, b, x) {
        if a != x {
          assert a - 1 >= x + n;
        }
      }
    }
  }

  function HorizontalPipes(runs: seq<(nat, nat)>, y: int): seq<Pipe>
  {
    if runs == [] then []
    else
      var a := Position(runs[0].0, y);
      var b := Position(runs[0].1, y);
      [Pipe(a, b, East), Pipe(b, a, West)] + HorizontalPipes(runs[1..], y)
  }

  function VerticalPipes(runs: seq<(nat, nat)>, x: int): seq<Pipe>
  {
    if runs == [] then []
    else
      var a := Position(x, runs[0].0);
      var b := Position(x, runs[0].1);
      [Pipe(a, b, South), Pipe(b, a, North)] + VerticalPipes(runs[1..], x)
  }

  /** The corner a corner character draws, read off the picture. */
  function CornerDrawnBy(c: char, p: Position): (r: Corner)
    requires IsCornerChar(c)
    ensures CornerGlyph(r) == c && r.position == p
  {
    match c
    case '7' => SouthWest(p)
    case 'J' => NorthWest(p)
    case 'L' => NorthEast(p)
    case 'F' => SouthEast(p)
  }

  /** The token kinds of the corner characters name the corners they draw. */
  lemma CornerKinds(c: char, p: Position)
    requires IsCornerChar(c)
    ensures IsCornerKind(KindOf(c)) && CornerOf(KindOf(c), p) == CornerDrawnBy(c, p)
  {
  }

  /** The corners of row `y` at or after column `x`, left to right. */
  function CornersOf(line: string, y: int, x: nat): seq<Corner>
    requires x <= |line|
    decreases |line| - x
  {
    if x == |line| then []
    else
      (if IsCornerChar(line[x]) then [CornerDrawnBy(line[x], Position(x, y))] else [])
      + CornersOf(line, y, x + 1)
  }

  /** The index of the last `c` in `line` at or after `x`. */
  function LastIndex(line: string, c: char, x: nat): (r: Option<nat>)
    requires x <= |line|
    ensures r.Some? ==> x <= r.value < |line| && line[r.value] == c
    decreases |line| - x
  {
    if x == |line| then None
    else
      var later := LastIndex(line, c, x + 1);
      if later.Some? then later
      else if line[x] == c then Some(x)
      else None
  }

  /** `LastIndex` finds the last `c`, and finds none only when there is none. */
  lemma {:induction false} LastIndexMeans(line: string, c: char, x: nat)
    requires x <= |line|
    ensures var r := LastIndex(line, c, x);
            (r.Some? ==> forall i :: r.value < i < |line| ==> line[i] != c) &&
            (r.None? ==> forall i :: x <= i < |line| ==> line[i] != c)
    decreases |line| - x
  {
    if x < |line| {
      LastIndexMeans(line, c, x + 1);
    }
  }

  // ---------------------------------------------------------------------
  // Skipping characters that a reference description ignores.

  lemma {:induction false} RunsSkip(line: string, c: char, x: nat, k: nat)
    requires x + k <= |line|
    requires forall i :: x <= i < x + k ==> line[i] != c
    ensures RunsOf(line, c, x) == RunsOf(line, c, x + k)
    decreases k
  {
    if k > 0 {
      RunsSkip(line, c, x + 1, k - 1);
    }
  }

  lemma {:induction false} CornersSkip(line: string, y: int, x: nat, k: nat)
    requires x + k <= |line|
    requires forall i :: x <= i < x + k ==> !IsCornerChar(line[i])
    ensures CornersOf(line, y, x) == CornersOf(line, y, x + k)
    decreases k
  {
    if k > 0 {
      CornersSkip(line, y, x + 1, k - 1);
    }
  }

  lemma {:induction false} LastSkip(line: string, c: char, x: nat, k: nat)
    requires x + k <= |line|
    requires forall i :: x <= i < x + k ==> line[i] != c
    ensures LastIndex(line, c, x) == LastIndex(line, c, x + k)
    decreases k
  {
    if k > 0 {
      LastSkip(line, c, x + 1, k - 1);
    }
  }

  lemma {:induction false} MazeSkip(line: string, x: nat, k: nat)
    requires x + k <= |line|
    requires forall i :: x <= i < x + k ==> IsMazeChar(line[i])
    ensures AllMazeFrom(line, x) <==> AllMazeFrom(line, x + k)
    decreases k
  {
    if k > 0 {
      MazeSkip(line, x + 1, k - 1);
    }
  }

  // ---------------------------------------------------------------------
  // The scanners agree with the reference descriptions.

  /** The row scan fails exactly on a character that draws no maze piece. */
  lemma {:induction false} ScanRowFails(y: int, line: string, x: nat, acc: RowScan)
    requires x <= |line|
    ensures ScanRow(y, line, x, acc).None? <==> !AllMazeFrom(line, x)
    decreases |line| - x
  {
    if x < |line| && IsMazeChar(line[x]) {
      var len := TokenLen(line, x);
      TokenUniform(line, x);
      MazeSkip(line, x, len);
      ScanRowFails(y, line, x + len, RecordRow(acc, KindOf(line[x]), x, len, y));
    }
  }

  /** The pipes a token adds, and the pipes the reference gives it, agree. */
  lemma PipesStep(y: int, line: string, x: nat, acc: RowScan)
    requires x < |line| && IsMazeChar(line[x])
    ensures var len := TokenLen(line, x);
            acc.pipes + HorizontalPipes(RunsOf(line, '-', x), y) ==
              RecordRow(acc, KindOf(line[x]), x, len, y).pipes + HorizontalPipes(RunsOf(line, '-', x + len), y)
  {
    var len := TokenLen(line, x);
    var later := HorizontalPipes(RunsOf(line, '-', x + len), y);
    if line[x] == '-' {
      var runs := RunsOf(line, '-', x);
      assert runs == [(x, x + len - 1)] + RunsOf(line, '-', x + len);
      assert runs[1..] == RunsOf(line, '-', x + len);
      var added := [Pipe(Position(x, y), Position(x + len - 1, y), East),
                    Pipe(Position(x + len - 1, y), Position(x, y), West)];
      assert acc.pipes + (added + later) == (acc.pipes + added) + later;
    } else {
      TokenUniform(line, x);
      RunsSkip(line, '-', x, len);
    }
  }

  /** The row scan's pipes: an eastbound and a westbound pipe per maximal
      `-` run, left to right. */
  lemma {:induction false} ScanRowPipes(y: int, line: string, x: nat, acc: RowScan)
    requires x <= |line|
    ensures ScanRow(y, line, x, acc).Some? ==>
      ScanRow(y, line, x, acc).value.pipes == acc.pipes + HorizontalPipes(RunsOf(line, '-', x), y)
    decreases |line| - x
  {
    if x == |line| {
      assert acc.pipes + [] == acc.pipes;
    } else if IsMazeChar(line[x]) {
      var len := TokenLen(line, x);
      PipesStep(y, line, x, acc);
      ScanRowPipes(y, line, x + len, RecordRow(acc, KindOf(line[x]), x, len, y));
    }
  }

  lemma CornersStep(y: int, line: string, x: nat, acc: RowScan)
    requires x < |line| && IsMazeChar(line[x])
    ensures var len := TokenLen(line, x);
            acc.corners + CornersOf(line, y, x) ==
              RecordRow(acc, KindOf(line[x]), x, len, y).corners + CornersOf(line, y, x + len)
  {
    var len := TokenLen(line, x);
    if IsCornerChar(line[x]) {
      var added := [CornerDrawnBy(line[x], Position(x, y))];
      var later := CornersOf(line, y, x + 1);
      assert acc.corners + (added + later) == (acc.corners + added) + later;
    } else {
      TokenUniform(line, x);
      CornersSkip(line, y, x, len);
    }
  }

  /** The row scan's corners: every corner character, left to right, as the
      corner its drawing shows. */
  lemma {:induction false} ScanRowCorners(y: int, line: string, x: nat, acc: RowScan)
    requires x <= |line|
    ensures ScanRow(y, line, x, acc).Some? ==>
      ScanRow(y, line, x, acc).value.corners == acc.corners + CornersOf(line, y, x)
    decreases |line| - x
  {
    if x == |line| {
      assert acc.corners + [] == acc.corners;
    } else if IsMazeChar(line[x]) {
      var len := TokenLen(line, x);
      CornersStep(y, line, x, acc);
      ScanRowCorners(y, line, x + len, RecordRow(acc, KindOf(line[x]), x, len, y));
    }
  }

  /** The row scan's start marker: the last `S` of the row. */
  lemma {:induction false} ScanRowStart(y: int, line: string, x: nat, acc: RowScan)
    requires x <= |line|
    ensures ScanRow(y, line, x, acc).Some? ==>
      ScanRow(y, line, x, acc).value.start ==
        (if LastIndex(line, 'S', x).Some? then Some(Position(LastIndex(line, 'S', x).value, y)) else acc.start)
    decreases |line| - x
  {
    if x < |line| && IsMazeChar(line[x]) {
      var len := TokenLen(line, x);
      if line[x] != 'S' {
        TokenUniform(line, x);
        LastSkip(line, 'S', x, len);
      }
      ScanRowStart(y, line, x + len, RecordRow(acc, KindOf(line[x]), x, len, y));
    }
  }

  /** `parse_row` in full: `None` exactly when the row holds a character
      that draws no maze piece; otherwise the last `S`, a pipe each way per
      maximal `-` run, and every corner. */
  lemma ParseRowMeaning(y: int, line: string)
    ensures ScanRow(y, line, 0, RowScan(None, [], [])) ==
      (if AllMazeFrom(line, 0) then
         var last := LastIndex(line, 'S', 0);
         Some(RowScan(if last.Some? then Some(Position(last.value, y)) else None,
                      HorizontalPipes(RunsOf(line, '-', 0), y),
                      CornersOf(line, y, 0)))
       else None)
  {
    var empty := RowScan(None, [], []);
    ScanRowFails(y, line, 0, empty);
    ScanRowPipes(y, line, 0, empty);
    ScanRowCorners(y, line, 0, empty);
    ScanRowStart(y, line, 0, empty);
    assert [] + HorizontalPipes(RunsOf(line, '-', 0), y) == HorizontalPipes(RunsOf(line, '-', 0), y);
    assert [] + CornersOf(line, y, 0) == CornersOf(line, y, 0);
  }

  lemma ColumnStep(x: int, column: string, y: nat, acc: seq<Pipe>)
    requires y < |column| && IsMazeChar(column[y])
    ensures var len := TokenLen(column, y);
            acc + VerticalPipes(RunsOf(column, '|', y), x) ==
              RecordColumn(acc, KindOf(column[y]), x, y, len) + VerticalPipes(RunsOf(column, '|', y + len), x)
  {
    var len := TokenLen(column, y);
    if column[y] == '|' {
      var runs := RunsOf(column, '|', y);
      assert runs == [(y, y + len - 1)] + RunsOf(column, '|', y + len);
      assert runs[1..] == RunsOf(column, '|', y + len);
    } else {
      TokenUniform(column, y);
      RunsSkip(column, '|', y, len);
    }
  }

  /** The column scan fails exactly on a character that draws no maze
      piece; otherwise it finds a southbound and a northbound pipe per
      maximal `|` run. */
  lemma {:induction false} ScanColumnMeaning(x: int, column: string, y: nat, acc: seq<Pipe>)
    requires y <= |column|
    ensures ScanColumn(x, column, y, acc) ==
      (if AllMazeFrom(column, y) then Some(acc + VerticalPipes(RunsOf(column, '|', y), x)) else None)
    decreases |column| - y
  {
    if y == |column| {
      assert acc + [] == acc;
    } else if IsMazeChar(column[y]) {
      var len := TokenLen(column, y);
      TokenUniform(column, y);
      MazeSkip(column, y, len);
      ColumnStep(x, column, y, acc);
      ScanColumnMeaning(x, column, y + len, RecordColumn(acc, KindOf(column[y]), x, y, len));
    }
  }

  /** `parse_column` in full. */
  lemma ParseColumnMeaning(x: int, column: string)
    ensures ScanColumn(x, column, 0, []) ==
      (if AllMazeFrom(column, 0) then Some(VerticalPipes(RunsOf(column, '|', 0), x)) else None)
  {
    ScanColumnMeaning(x, column, 0, []);
    assert [] + VerticalPipes(RunsOf(column, '|', 0), x) == VerticalPipes(RunsOf(column, '|', 0), x);
  }
}
