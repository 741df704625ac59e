/** The engine schematic of day03/src/main.rs: every row of the grid is cut
    into tokens (a blank `.`, a one-character symbol, or a number), numbers
    are stored at every cell their digits cover, and the symbols look at
    their eight neighbouring cells. Part 1 sums the distinct numbers next to
    any symbol; part 2 sums, over the `*` symbols next to exactly two
    distinct numbers, the product of those two numbers. */
module Day03 {

  import opened Parsing

  /** `DataRaw`: what one token of a row is. */
  datatype Raw = Blank | Sym(c: char) | Value(n: nat)

  /** `DataValue`: one cell covered by a number; `start` is the cell of the
      number's first digit and identifies the number. */
  datatype DataValue = DataValue(start: (int, int), value: nat, x: int, y: int)

  /** `Symbol(char, x, y)`. */
  datatype Symbol = Symbol(c: char, x: int, y: int)

  /** `StoredValue`: what the value map holds for a covered cell. */
  datatype Stored = Stored(id: (int, int), value: nat)

  /** The values and symbols `line` collects from one row. */
  datatype Row = Row(values: seq<DataValue>, symbols: seq<Symbol>)

  /** `char::is_alphanumeric` on ASCII input. */
  predicate IsAlphanumeric(c: char) { IsAlpha(c) || IsDigit(c) }

  /** What `symbol` accepts: neither alphanumeric nor a `.`. */
  predicate IsSymbol(c: char) { !IsAlphanumeric(c) && c != '.' }

  // ---------------------------------------------------------------------
  // The grammar.

  /** `data`: `alt((blank, symbol, number))`. Only a letter (or the end of
      the input) makes it fail; a number is the longest run of digits. */
  function Data(s: string): (r: Parsed<Raw>)
    ensures r.Success? ==> |r.rest| < |s|
  {
    if s != [] && s[0] == '.' then Success(Blank, s[1..])
    else if s != [] && IsSymbol(s[0]) then Success(Sym(s[0]), s[1..])
    else
      var n := Unsigned(s);
      if n.Failure? then Failure else Success(Value(n.value), n.rest)
  }

  /** What `data` reads: it fails only on a letter or at the end of the
      input; a `.` is a blank, any other non-alphanumeric character a
      symbol, each one character long, and a digit starts a number that
      takes the whole run of digits. */
  lemma DataMeans(s: string)
    ensures var r := Data(s);
      (r.Success? <==> s != [] && !IsAlpha(s[0])) &&
      (r.Success? ==> (r.value.Value? <==> IsDigit(s[0]))) &&
      (r.Success? && r.value.Value? ==>
        var n := SpanLength(s, IsDigit);
        r.rest == s[n..] && r.value.n == DecimalValue(s[..n])) &&
      (r.Success? && !r.value.Value? ==>
        r.rest == s[1..] && (r.value.Blank? <==> s[0] == '.') && (r.value.Sym? ==> r.value.c == s[0] && IsSymbol(s[0])))
  {
  }

  // ---------------------------------------------------------------------
  // `line`.

  /** The cells `from` .. `to - 1` of the number whose first digit is at
      `(x, y)`. */
  function NumberCells(x: int, y: int, v: nat, from: int, to: int): seq<DataValue>
    decreases to - from
  {
    if from >= to then [] else [DataValue((x, y), v, from, y)] + NumberCells(x, y, v, from + 1, to)
  }

  lemma {:induction false} NumberCellsSnoc(x: int, y: int, v: nat, lo: int, hi: int)
    requires lo <= hi
    ensures NumberCells(x, y, v, lo, hi + 1) == NumberCells(x, y, v, lo, hi) + [DataValue((x, y), v, hi, y)]
    decreases hi - lo
  {
    if lo < hi {
      NumberCellsSnoc(x, y, v, lo + 1, hi);
    } else {
      assert NumberCells(x, y, v, lo + 1, hi + 1) == [];
    }
  }

  /** What one token at column `x` adds, running up to column `next`. */
  function Token(y: int, x: int, next: int, raw: Raw): Row
  {
    match raw
    case Blank => Row([], [])
    case Sym(c) => Row([], [Symbol(c, x, y)])
    case Value(v) => Row(NumberCells(x, y, v, x, next), [])
  }

  /** A row collected so far, followed by what the rest of the row gives;
      nothing once a token has failed. */
  function Join(front: Row, back: Option<Row>): Option<Row>
  {
    if back.None? then None else Some(Row(front.values + back.value.values, front.symbols + back.value.symbols))
  }

  /** What `line` collects from the text `s`, which starts at column `x`
      of row `y`; `None` where `data(..).finish().unwrap()` panics. */
  function Scan(y: int, s: string, x: int): Option<Row>
    decreases |s|
  {
    if s == [] then Some(Row([], []))
    else
      var d := Data(s);
      if d.Failure? then None
      else
        var next := x + (|s| - |d.rest|);
        Join(Token(y, x, next, d.value), Scan(y, d.rest, next))
  }

  /** One step of `Scan`: the first token, then the rest of the text;
      nothing when `data` fails on it. */
  lemma ScanStep(y: int, t: string, x: int, d: Parsed<Raw>, next: int)
    requires t != [] && d == Data(t) && (d.Success? ==> next == x + (|t| - |d.rest|))
    ensures d.Failure? ==> Scan(y, t, x) == None
    ensures d.Success? ==> Scan(y, t, x) == Join(Token(y, x, next, d.value), Scan(y, d.rest, next))
  {
  }

  /** One more cell of a number pushed onto the values. */
  lemma PushCell(front: seq<DataValue>, x: int, y: int, v: nat, next: int)
    requires x <= next
    ensures (front + NumberCells(x, y, v, x, next)) + [DataValue((x, y), v, next, y)] == front + NumberCells(x, y, v, x, next + 1)
  {
    NumberCellsSnoc(x, y, v, x, next);
    AppendAssocOf(front, NumberCells(x, y, v, x, next), [DataValue((x, y), v, next, y)]);
  }

  /** What has been collected, then one token, then the rest of the row. */
  lemma JoinJoin(a: Row, b: Row, c: Option<Row>)
    ensures Join(a, Join(b, c)) == Join(Row(a.values + b.values, a.symbols + b.symbols), c)
  {
    if c.Some? {
      AppendAssocOf(a.values, b.values, c.value.values);
      AppendAssocOf(a.symbols, b.symbols, c.value.symbols);
    }
  }

  lemma JoinNothing(back: Option<Row>)
    ensures Join(Row([], []), back) == back
  {
    if back.Some? {
      AppendNothing(back.value.values);
      AppendNothing(back.value.symbols);
    }
  }

  lemma AppendAssocOf<T>(a: seq<T>, b: seq<T>, c: seq<T>)
    ensures (a + b) + c == a + (b + c)
  {
  }

  /** `line`: a loop over the tokens of the row, pushing a symbol for every
      symbol and one value per digit for every number. */
  method Line(y: int, input: string) returns (r: Option<Row>)
    ensures r == Scan(y, input, 0)
  {
    var values: seq<DataValue> := [];
    var symbols: seq<Symbol> := [];
    var x := 0;
    var remaining := input;
    ghost var whole := Scan(y, input, 0);
    JoinNothing(whole);
    while remaining != []
      invariant whole == Join(Row(values, symbols), Scan(y, remaining, x))
      decreases |remaining|
    {
      var ok;
      ok, values, symbols, remaining, x := LineToken(y, whole, values, symbols, remaining, x);
      if !ok {
        return None;
      }
    }
    AppendNothing(values);
    AppendNothing(symbols);
    return Some(Row(values, symbols));
  }

  /** One pass of the loop of `line`: `data` reads the next token, which is
      pushed, or the row fails. */
  method LineToken(y: int, ghost whole: Option<Row>, values: seq<DataValue>, symbols: seq<Symbol>, remaining: string, x: int)
    returns (ok: bool, newValues: seq<DataValue>, newSymbols: seq<Symbol>, rest: string, next: int)
    requires remaining != [] && whole == Join(Row(values, symbols), Scan(y, remaining, x))
    ensures !ok ==> whole == None
    ensures ok ==> |rest| < |remaining| && whole == Join(Row(newValues, newSymbols), Scan(y, rest, next))
  {
    var d := Data(remaining);
    if d.Failure? {
      ScanStep(y, remaining, x, d, x);
      return false, values, symbols, remaining, x;
    }
    var len := |remaining| - |d.rest|;
    newValues, newSymbols := PushToken(values, symbols, y, x, len, d.value);
    ok, rest, next := true, d.rest, x + len;
    ScanStep(y, remaining, x, d, next);
    JoinJoin(Row(values, symbols), Token(y, x, next, d.value), Scan(y, rest, next));
  }

  /** The `match data` of `line`: nothing for a blank, the symbol for a
      symbol, and the number's cells for a number. */
  method PushToken(values: seq<DataValue>, symbols: seq<Symbol>, y: int, x: int, len: nat, raw: Raw)
    returns (newValues: seq<DataValue>, newSymbols: seq<Symbol>)
    ensures newValues == values + Token(y, x, x + len, raw).values
    ensures newSymbols == symbols + Token(y, x, x + len, raw).symbols
  {
    newValues, newSymbols := values, symbols;
    AppendNothing(values);
    AppendNothing(symbols);
    match raw {
      case Blank =>
      case Sym(c) =>
        newSymbols := symbols + [Symbol(c, x, y)];
      case Value(value) =>
        newValues := PushNumber(values, x, y, value, len);
    }
  }

  /** The `for new_x in x..(x + len)` loop of `line`: one value per cell of
      the number, all with the number's first cell as their id. */
  method PushNumber(before: seq<DataValue>, x: int, y: int, value: nat, len: nat) returns (values: seq<DataValue>)
    ensures values == before + NumberCells(x, y, value, x, x + len)
  {
    values := before;
    AppendNothing(values);
    for newX := x to x + len
      invariant values == before + NumberCells(x, y, value, x, newX)
    {
      PushCell(before, x, y, value, newX);
      values := values + [DataValue((x, y), value, newX, y)];
    }
  }

  // ---------------------------------------------------------------------
  // What `line` finds, cell by cell.

  /** The first column of the digit run that covers column `i`. */
  function RunStart(s: string, i: nat): (k: nat)
    requires i < |s| && IsDigit(s[i])
    ensures k <= i
    ensures k == 0 || !IsDigit(s[k - 1])
  {
    if i > 0 && IsDigit(s[i - 1]) then RunStart(s, i - 1) else i
  }

  /** The column just past the digit run that covers column `i`. */
  function RunEnd(s: string, i: nat): (k: nat)
    requires i < |s| && IsDigit(s[i])
    ensures i < k <= |s|
    ensures k == |s| || !IsDigit(s[k])
    decreases |s| - i
  {
    if i + 1 < |s| && IsDigit(s[i + 1]) then RunEnd(s, i + 1) else i + 1
  }

  /** The value stored for a digit at column `i` of row `y`: the number
      written by its whole run, identified by the run's first column. */
  function CellValue(y: int, s: string, i: nat): DataValue
    requires i < |s| && IsDigit(s[i])
  {
    RunDigits(s, i);
    DataValue((RunStart(s, i), y), RunValue(s, RunStart(s, i), RunEnd(s, i)), i, y)
  }

  /** The number written by the digits of columns `start` .. `end - 1`. */
  function RunValue(s: string, start: nat, end: nat): nat
    requires start <= end <= |s| && forall j :: start <= j < end ==> IsDigit(s[j])
  {
    assert forall j :: 0 <= j < end - start ==> s[start..end][j] == s[start + j];
    DecimalValue(s[start..end])
  }

  /** Columns `start` .. `end - 1` hold a whole run of digits. */
  predicate DigitRun(s: string, start: nat, end: nat)
  {
    start < end <= |s| && (forall j :: start <= j < end ==> IsDigit(s[j])) &&
    (start == 0 || !IsDigit(s[start - 1])) && (end == |s| || !IsDigit(s[end]))
  }

  lemma RunDigits(s: string, i: nat)
    requires i < |s| && IsDigit(s[i])
    ensures forall j :: RunStart(s, i) <= j < RunEnd(s, i) ==> IsDigit(s[j])
  {
    RunStartDigits(s, i);
    RunEndDigits(s, i);
  }

  lemma {:induction false} RunStartDigits(s: string, i: nat)
    requires i < |s| && IsDigit(s[i])
    ensures forall j :: RunStart(s, i) <= j <= i ==> IsDigit(s[j])
  {
    if i > 0 && IsDigit(s[i - 1]) {
      RunStartDigits(s, i - 1);
    }
  }

  lemma {:induction false} RunEndDigits(s: string, i: nat)
    requires i < |s| && IsDigit(s[i])
    ensures forall j :: i <= j < RunEnd(s, i) ==> IsDigit(s[j])
    decreases |s| - i
  {
    if i + 1 < |s| && IsDigit(s[i + 1]) {
      RunEndDigits(s, i + 1);
    }
  }

  /** One value per digit of the row from column `i` on, left to right. */
  function CellsFrom(y: int, s: string, i: nat): seq<DataValue>
    requires i <= |s|
    decreases |s| - i
  {
    if i == |s| then []
    else (if IsDigit(s[i]) then [CellValue(y, s, i)] else []) + CellsFrom(y, s, i + 1)
  }

  /** One symbol per symbol character of the row from column `i` on. */
  function SymbolsFrom(y: int, s: string, i: nat): seq<Symbol>
    requires i <= |s|
    decreases |s| - i
  {
    if i == |s| then []
    else (if IsSymbol(s[i]) then [Symbol(s[i], i, y)] else []) + SymbolsFrom(y, s, i + 1)
  }

  /** Column `x` does not cut a run of digits in two. */
  predicate TokenBoundary(s: string, x: nat)
    requires x <= |s|
  {
    x < |s| && IsDigit(s[x]) ==> x == 0 || !IsDigit(s[x - 1])
  }

  predicate NoLettersFrom(s: string, x: nat)
  {
    forall i :: x <= i < |s| ==> !IsAlpha(s[i])
  }

  /** The token that starts at column `x` of a row, read off the row's
      characters: a `.` is a blank, any other non-alphanumeric character a
      symbol, and a digit starts a number running to the end of its run. The
      second component is the column just past the token. */
  function TokenAt(s: string, x: nat): (Raw, nat)
    requires x < |s| && !IsAlpha(s[x])
  {
    if s[x] == '.' then (Blank, x + 1)
    else if IsSymbol(s[x]) then (Sym(s[x]), x + 1)
    else
      RunEndDigits(s, x);
      (Value(RunValue(s, x, RunEnd(s, x))), RunEnd(s, x))
  }

  /** `data` applied to the row from column `x` on reads exactly the token
      `TokenAt` describes, and fails exactly on a letter. */
  lemma DataAt(s: string, x: nat, t: string)
    requires x < |s| && t == s[x..]
    ensures Data(t) == if IsAlpha(s[x]) then Failure else Success(TokenAt(s, x).0, s[TokenAt(s, x).1..])
  {
    DataFacts(s, x, t);
    var d := Data(t);
    if d.Success? && d.value.Value? {
      RunEndIs(s, |s| - |d.rest|, x);
    }
  }

  /** What the token at column `x` is, stated on the row itself. */
  lemma DataFacts(s: string, x: nat, t: string)
    requires x < |s| && t == s[x..]
    ensures var d := Data(t); var next := if d.Success? then |s| - |d.rest| else x;
      (d.Success? <==> !IsAlpha(s[x])) &&
      (d.Success? ==> x < next <= |s| && d.rest == s[next..] && (d.value.Value? <==> IsDigit(s[x]))) &&
      (d.Success? && d.value.Value? ==>
        (forall j :: x <= j < next ==> IsDigit(s[j])) && (next == |s| || !IsDigit(s[next])) &&
        d.value.n == RunValue(s, x, next)) &&
      (d.Success? && !d.value.Value? ==>
        next == x + 1 && (d.value.Blank? <==> s[x] == '.') && (d.value.Sym? ==> d.value.c == s[x] && IsSymbol(s[x])))
  {
    assert t[0] == s[x];
    if IsDigit(s[x]) {
      NumberFacts(s, x, t);
    } else {
      DataMeans(t);
      assert t[1..] == s[x + 1..];
    }
  }

  /** A number token starting at column `x` takes the whole run of digits. */
  lemma NumberFacts(s: string, x: nat, t: string)
    requires x < |s| && t == s[x..] && IsDigit(s[x])
    ensures var d := Data(t); var next := |s| - |d.rest|;
      d.Success? && d.value.Value? && x < next <= |s| && d.rest == s[next..] &&
      (forall j :: x <= j < next ==> IsDigit(s[j])) && (next == |s| || !IsDigit(s[next])) &&
      d.value.n == RunValue(s, x, next)
  {
    assert t[0] == s[x];
    var n := SpanLength(t, IsDigit);
    assert Data(t) == Success(Value(DecimalValue(t[..n])), t[n..]);
    forall j | x <= j < x + n
      ensures IsDigit(s[j])
    {
      assert t[j - x] == s[j];
    }
    if x + n < |s| {
      assert t[n] == s[x + n];
    }
    assert t[..n] == s[x..x + n];
    assert t[n..] == s[x + n..];
  }

  /** `line` panics exactly when the row holds a letter: every other
      character is taken by some token, and no token takes a letter. */
  lemma {:induction false} ScanFails(y: int, t: string, x: int)
    ensures Scan(y, t, x).None? <==> exists i :: 0 <= i < |t| && IsAlpha(t[i])
    decreases |t|
  {
    if t != [] {
      DataTakes(t);
      var d := Data(t);
      var next := if d.Success? then x + (|t| - |d.rest|) else x;
      ScanStep(y, t, x, d, next);
      if d.Success? {
        ScanFails(y, d.rest, next);
        LettersAfter(t, d.rest);
      } else {
        assert IsAlpha(t[0]);
      }
    }
  }

  /** The token at the start of `t` takes no letter, and fails exactly on
      one. */
  lemma DataTakes(t: string)
    ensures Data(t).Success? <==> t != [] && !IsAlpha(t[0])
    ensures Data(t).Success? ==> forall i :: 0 <= i < |t| - |Data(t).rest| ==> !IsAlpha(t[i])
  {
    DataMeans(t);
  }

  lemma LettersAfter(t: string, rest: string)
    requires IsSuffix(rest, t) && forall i :: 0 <= i < |t| - |rest| ==> !IsAlpha(t[i])
    ensures (exists i :: 0 <= i < |t| && IsAlpha(t[i])) <==> exists i :: 0 <= i < |rest| && IsAlpha(rest[i])
  {
    var k := |t| - |rest|;
    if exists i :: 0 <= i < |t| && IsAlpha(t[i]) {
      var i :| 0 <= i < |t| && IsAlpha(t[i]);
      assert rest[i - k] == t[i];
    }
    if exists i :: 0 <= i < |rest| && IsAlpha(rest[i]) {
      var i :| 0 <= i < |rest| && IsAlpha(rest[i]);
      assert t[i + k] == rest[i];
    }
  }

  /** Every digit of a run is stored with the run's first column as its id
      and the run's value. */
  lemma CellOfRun(y: int, s: string, x: nat, end: nat, k: nat)
    requires DigitRun(s, x, end) && x <= k < end
    ensures IsDigit(s[k]) && CellValue(y, s, k) == DataValue((x, y), RunValue(s, x, end), k, y)
  {
    RunStartIs(s, x, k);
    RunEndIs(s, end, k);
  }

  /** A number token covers its whole run: from column `k` of the run on,
      the cells are the run's cells followed by what comes after the run. */
  lemma {:induction false} NumberRun(y: int, s: string, x: nat, end: nat, k: nat)
    requires DigitRun(s, x, end) && x <= k <= end
    ensures CellsFrom(y, s, k) == NumberCells(x, y, RunValue(s, x, end), k, end) + CellsFrom(y, s, end)
    ensures SymbolsFrom(y, s, k) == SymbolsFrom(y, s, end)
    decreases end - k
  {
    if k < end {
      NumberRun(y, s, x, end, k + 1);
      CellOfRun(y, s, x, end, k);
      var c := DataValue((x, y), RunValue(s, x, end), k, y);
      assert CellsFrom(y, s, k) == [c] + CellsFrom(y, s, k + 1);
      assert NumberCells(x, y, RunValue(s, x, end), k, end) == [c] + NumberCells(x, y, RunValue(s, x, end), k + 1, end);
      AppendAssocOf([c], NumberCells(x, y, RunValue(s, x, end), k + 1, end), CellsFrom(y, s, end));
      assert SymbolsFrom(y, s, k) == [] + SymbolsFrom(y, s, k + 1);
      AppendNothing(SymbolsFrom(y, s, k + 1));
    } else {
      AppendNothing(CellsFrom(y, s, end));
    }
  }

  lemma {:induction false} RunStartIs(s: string, x: nat, k: nat)
    requires x <= k < |s| && forall j :: x <= j <= k ==> IsDigit(s[j])
    requires x == 0 || !IsDigit(s[x - 1])
    ensures RunStart(s, k) == x
  {
    if k > x {
      RunStartIs(s, x, k - 1);
    }
  }

  lemma {:induction false} RunEndIs(s: string, end: nat, k: nat)
    requires k < end <= |s| && forall j :: k <= j < end ==> IsDigit(s[j])
    requires end == |s| || !IsDigit(s[end])
    ensures RunEnd(s, k) == end
    decreases end - k
  {
    if k + 1 < end {
      RunEndIs(s, end, k + 1);
    }
  }

  /** On a row without letters, `line` collects exactly one value per digit
      (the number of its run, identified by the run's first column) and one
      symbol per symbol character, both left to right. */
  lemma {:induction false} ScanMeaning(y: int, s: string, x: nat, t: string)
    requires x <= |s| && t == s[x..] && NoLettersFrom(s, x) && TokenBoundary(s, x)
    ensures Scan(y, t, x) == Some(Row(CellsFrom(y, s, x), SymbolsFrom(y, s, x)))
    decreases |s| - x
  {
    if x < |s| {
      assert !IsAlpha(s[x]);
      var (raw, next) := TokenAt(s, x);
      ScanToken(y, s, x, t);
      TokenCells(y, s, x);
      ScanMeaning(y, s, next, s[next..]);
      JoinSome(Token(y, x, next, raw), CellsFrom(y, s, next), SymbolsFrom(y, s, next));
    }
  }

  /** `Scan` from column `x` takes the token `TokenAt` describes. */
  lemma ScanToken(y: int, s: string, x: nat, t: string)
    requires x < |s| && t == s[x..] && !IsAlpha(s[x])
    ensures TokenAt(s, x).1 <= |s|
    ensures Scan(y, t, x) == Join(Token(y, x, TokenAt(s, x).1, TokenAt(s, x).0), Scan(y, s[TokenAt(s, x).1..], TokenAt(s, x).1))
  {
    var raw := TokenAt(s, x).0;
    var next := TokenAt(s, x).1;
    DataAt(s, x, t);
    var rest := s[next..];
    assert |rest| == |s| - next;
    ScanData(y, t, x, raw, rest, next);
  }

  /** `Scan` after a token that `data` reads. */
  lemma ScanData(y: int, t: string, x: int, raw: Raw, rest: string, next: int)
    requires t != [] && Data(t) == Success(raw, rest) && next == x + (|t| - |rest|)
    ensures Scan(y, t, x) == Join(Token(y, x, next, raw), Scan(y, rest, next))
  {
    ScanStep(y, t, x, Data(t), next);
  }

  lemma JoinSome(front: Row, values: seq<DataValue>, symbols: seq<Symbol>)
    ensures Join(front, Some(Row(values, symbols))) == Some(Row(front.values + values, front.symbols + symbols))
  {
  }

  /** The cells and symbols of one token are what the reference definitions
      give for its columns, and the token ends on a token boundary. */
  lemma TokenCells(y: int, s: string, x: nat)
    requires x < |s| && !IsAlpha(s[x]) && TokenBoundary(s, x)
    ensures var (raw, next) := TokenAt(s, x);
      x < next <= |s| && TokenBoundary(s, next) &&
      CellsFrom(y, s, x) == Token(y, x, next, raw).values + CellsFrom(y, s, next) &&
      SymbolsFrom(y, s, x) == Token(y, x, next, raw).symbols + SymbolsFrom(y, s, next)
  {
    var (raw, next) := TokenAt(s, x);
    if raw.Value? {
      RunEndDigits(s, x);
      NumberRun(y, s, x, next, x);
      AppendNothing(SymbolsFrom(y, s, next));
    } else {
      AppendNothing(CellsFrom(y, s, next));
      if raw.Blank? {
        AppendNothing(SymbolsFrom(y, s, next));
      }
    }
  }

  /** The values of a row are exactly its digit cells, each carrying the
      run it belongs to. */
  lemma {:induction false} CellsFromMeans(y: int, s: string, x: nat)
    requires x <= |s|
    ensures forall j :: 0 <= j < |CellsFrom(y, s, x)| ==>
      var c := CellsFrom(y, s, x)[j];
      x <= c.x < |s| && IsDigit(s[c.x]) && c == CellValue(y, s, c.x)
    ensures forall i :: x <= i < |s| && IsDigit(s[i]) ==> CellValue(y, s, i) in CellsFrom(y, s, x)
    decreases |s| - x
  {
    if x < |s| {
      CellsFromMeans(y, s, x + 1);
    }
  }
}
