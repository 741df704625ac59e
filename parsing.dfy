/** Parsing primitives shared by every day: the parts of the nom grammar
    library the puzzles use (`char`, `tag`, `space0`, `multispace0`, `u64`,
    `i64`, `line_ending`), line splitting as `str::lines` does it, and sums. A
    parser is a function from the input text to `Parsed`, which is either a
    failure or the value together with the unconsumed rest of the input. */
module Parsing {

  datatype Option<T> = None | Some(value: T)

  datatype Parsed<T> = Failure | Success(value: T, rest: string)

  /** `r` is what is left of `s` after a prefix was consumed. */
  predicate IsSuffix(r: string, s: string)
  {
    |r| <= |s| && r == s[|s| - |r|..]
  }

  /** A parse result that, on success, left a suffix of the input. */
  predicate Consumes<T>(p: Parsed<T>, s: string)
  {
    p.Success? ==> IsSuffix(p.rest, s)
  }

  /** A parse result that, on success, consumed at least one character. */
  predicate Progresses<T>(p: Parsed<T>, s: string)
  {
    p.Success? ==> IsSuffix(p.rest, s) && |p.rest| < |s|
  }

  lemma SuffixTransitive(a: string, b: string, c: string)
    requires IsSuffix(a, b) && IsSuffix(b, c)
    ensures IsSuffix(a, c)
  {
    assert c[|c| - |b|..][|b| - |a|..] == c[|c| - |a|..];
  }

  predicate IsDigit(c: char) { '0' <= c <= '9' }

  function DigitValue(c: char): (d: nat)
    requires IsDigit(c)
    ensures d <= 9
  {
    (c as int) - ('0' as int)
  }

  function DigitChar(d: nat): (c: char)
    requires d <= 9
    ensures IsDigit(c) && DigitValue(c) == d
  {
    (('0' as int) + d) as char
  }

  /** `space0`: spaces and tabs. */
  predicate IsSpace(c: char) { c == ' ' || c == '\t' }

  /** `multispace0`: spaces, tabs, carriage returns and line feeds. */
  predicate IsMultispace(c: char) { c == ' ' || c == '\t' || c == '\r' || c == '\n' }

  /** ASCII letters (`alpha0`, `alpha1`, `char::is_alphabetic` on ASCII input). */
  predicate IsAlpha(c: char) { 'a' <= c <= 'z' || 'A' <= c <= 'Z' }

  /** `char::is_whitespace` on ASCII input. */
  predicate IsWhitespace(c: char)
  {
    c == ' ' || c == '\t' || c == '\n' || c == '\r' || c == '\U{B}' || c == '\U{C}'
  }

  /** Length of the longest prefix of `s` made only of `c`. */
  function RunLength(s: string, c: char): (n: nat)
    ensures n <= |s|
    ensures forall i :: 0 <= i < n ==> s[i] == c
    ensures n < |s| ==> s[n] != c
  {
    if s == [] || s[0] != c then 0 else 1 + RunLength(s[1..], c)
  }

  /** Length of the longest prefix of `s` made only of characters satisfying `p`. */
  function SpanLength(s: string, p: char -> bool): (n: nat)
    ensures n <= |s|
    ensures forall i :: 0 <= i < n ==> p(s[i])
    ensures n < |s| ==> !p(s[n])
  {
    if s == [] || !p(s[0]) then 0 else 1 + SpanLength(s[1..], p)
  }

  /** `space0`: never fails, drops the leading spaces and tabs. */
  function Space0(s: string): (r: string)
    ensures IsSuffix(r, s)
    ensures forall i :: 0 <= i < |s| - |r| ==> IsSpace(s[i])
    ensures r != [] ==> !IsSpace(r[0])
  {
    s[SpanLength(s, IsSpace)..]
  }

  /** `space0` drops exactly the spaces written before `rest`. */
  lemma SpacesThen(spaces: string, rest: string)
    requires forall i :: 0 <= i < |spaces| ==> spaces[i] == ' '
    requires rest == [] || !IsSpace(rest[0])
    ensures Space0(spaces + rest) == rest
  {
    SpanOf(spaces, rest, IsSpace);
    assert (spaces + rest)[|spaces|..] == rest;
  }

  /** `multispace0`: never fails, drops leading blanks and line breaks. */
  function Multispace0(s: string): (r: string)
    ensures IsSuffix(r, s)
    ensures forall i :: 0 <= i < |s| - |r| ==> IsMultispace(s[i])
    ensures r != [] ==> !IsMultispace(r[0])
  {
    s[SpanLength(s, IsMultispace)..]
  }

  /** `multispace0` takes nothing before a character that is not blank. */
  lemma MultispaceNone(s: string)
    requires s == [] || !IsMultispace(s[0])
    ensures Multispace0(s) == s
  {
    assert SpanLength(s, IsMultispace) == 0;
  }

  /** `char(c)`. */
  function Char(c: char, s: string): (r: Parsed<char>)
    ensures r.Success? <==> s != [] && s[0] == c
    ensures r.Success? ==> r == Success(c, s[1..])
  {
    if s != [] && s[0] == c then Success(c, s[1..]) else Failure
  }

  predicate StartsWith(s: string, t: string)
  {
    |t| <= |s| && s[..|t|] == t
  }

  lemma AppendAssoc(a: string, b: string, c: string)
    ensures (a + b) + c == a + (b + c)
  {
  }

  /** What a non-empty prefix starts. */
  lemma FirstOf(a: string, rest: string)
    requires a != []
    ensures a + rest != [] && (a + rest)[0] == a[0]
  {
  }

  /** Appending nothing changes nothing. */
  lemma AppendNothing<T>(xs: seq<T>)
    ensures xs + [] == xs && [] + xs == xs
  {
  }

  /** A sequence is its head followed by its tail. */
  lemma HeadTail<T>(xs: seq<T>)
    requires xs != []
    ensures [xs[0]] + xs[1..] == xs
  {
  }

  /** A string starts with what was written first. */
  lemma StartsWithAppend(t: string, rest: string)
    ensures StartsWith(t + rest, t) && (t + rest)[|t|..] == rest
  {
    assert (t + rest)[..|t|] == t;
  }

  /** A string does not start with `t` when it differs from `t` somewhere. */
  lemma DiffersAt(s: string, t: string, i: nat)
    requires i < |s| && i < |t| && s[i] != t[i]
    ensures !StartsWith(s, t)
  {
    if |t| <= |s| {
      assert s[..|t|][i] != t[i];
    }
  }

  /** `tag(t)`: the rest of `s` after the literal `t`, or nothing. */
  function Tag(t: string, s: string): (r: Option<string>)
    ensures r.Some? <==> StartsWith(s, t)
    ensures r.Some? ==> r.value == s[|t|..] && IsSuffix(r.value, s)
  {
    if StartsWith(s, t) then Some(s[|t|..]) else None
  }

  /** The rest of `s` after `"\n"` or `"\r\n"` (`line_ending`). */
  function LineEnding(s: string): (r: Option<string>)
    ensures r.Some? <==> StartsWith(s, "\n") || StartsWith(s, "\r\n")
    ensures r.Some? ==> IsSuffix(r.value, s) && |r.value| < |s|
  {
    if StartsWith(s, "\n") then Some(s[1..])
    else if StartsWith(s, "\r\n") then Some(s[2..])
    else None
  }

  /** The number written by a string of decimal digits. */
  function DecimalValue(digits: string): (n: nat)
    requires forall i :: 0 <= i < |digits| ==> IsDigit(digits[i])
  {
    if digits == [] then 0
    else 10 * DecimalValue(digits[..|digits| - 1]) + DigitValue(digits[|digits| - 1])
  }

  /** The decimal text of `n`, without leading zeros. */
  function Decimal(n: nat): (s: string)
    ensures |s| > 0
    ensures forall i :: 0 <= i < |s| ==> IsDigit(s[i])
  {
    if n < 10 then [DigitChar(n)] else Decimal(n / 10) + [DigitChar(n % 10)]
  }

  lemma {:induction false} DecimalRoundTrip(n: nat)
    ensures DecimalValue(Decimal(n)) == n
  {
    if n >= 10 {
      var s := Decimal(n);
      assert s[..|s| - 1] == Decimal(n / 10);
      DecimalRoundTrip(n / 10);
    }
  }

  /** `u64` (without its overflow check): one or more decimal digits. */
  function Unsigned(s: string): (r: Parsed<nat>)
    ensures r.Success? <==> s != [] && IsDigit(s[0])
    ensures Progresses(r, s)
    ensures r.Success? ==> var n := SpanLength(s, IsDigit);
                           r.rest == s[n..] && r.value == DecimalValue(s[..n])
  {
    var n := SpanLength(s, IsDigit);
    if n == 0 then Failure else Success(DecimalValue(s[..n]), s[n..])
  }

  /** `u64` reads back what `Decimal` writes. */
  lemma UnsignedRoundTrip(n: nat, rest: string)
    requires rest == [] || !IsDigit(rest[0])
    ensures Unsigned(Decimal(n) + rest) == Success(n, rest)
  {
    var d := Decimal(n);
    var s := d + rest;
    SpanOf(d, rest, IsDigit);
    assert s[..|d|] == d;
    assert s[|d|..] == rest;
    DecimalRoundTrip(n);
  }

  /** The span of `p` ends where the characters satisfying it end. */
  lemma {:induction false} SpanOf(d: string, rest: string, p: char -> bool)
    requires forall i :: 0 <= i < |d| ==> p(d[i])
    requires rest == [] || !p(rest[0])
    ensures SpanLength(d + rest, p) == |d|
  {
    if d == [] {
      assert d + rest == rest;
    } else {
      assert (d + rest)[1..] == d[1..] + rest;
      SpanOf(d[1..], rest, p);
    }
  }

  /** `i64` (without its overflow check): an optional `+` or `-` sign, then
      one or more decimal digits. */
  function Signed(s: string): (r: Parsed<int>)
    ensures Progresses(r, s)
    ensures r.Success? <==>
      (s != [] && IsDigit(s[0])) || (|s| >= 2 && (s[0] == '+' || s[0] == '-') && IsDigit(s[1]))
  {
    var negative := s != [] && s[0] == '-';
    var digits := if s != [] && (s[0] == '-' || s[0] == '+') then s[1..] else s;
    var u := Unsigned(digits);
    if u.Failure? then Failure
    else var magnitude: int := u.value; Success(if negative then -magnitude else magnitude, u.rest)
  }

  /** The text `i64` reads: a minus sign for negative numbers. */
  function SignedDecimal(n: int): string
  {
    if n < 0 then "-" + Decimal(-n) else Decimal(n)
  }

  lemma SignedRoundTrip(n: int, rest: string)
    requires rest == [] || !IsDigit(rest[0])
    ensures Signed(SignedDecimal(n) + rest) == Success(n, rest)
  {
    var d := Decimal(Abs(n));
    UnsignedRoundTrip(Abs(n), rest);
    if n < 0 {
      SignedNegative(d, rest);
    } else {
      SignedUnsigned(d + rest);
    }
  }

  function Abs(n: int): nat { if n < 0 then -n else n }

  /** `i64` after a minus sign negates what `u64` reads. */
  lemma SignedNegative(d: string, rest: string)
    ensures var u := Unsigned(d + rest);
            u.Success? ==> var v: int := u.value; Signed("-" + d + rest) == Success(-v, u.rest)
  {
    assert ("-" + d + rest)[1..] == d + rest;
  }

  /** `i64` on a leading digit reads what `u64` reads. */
  lemma SignedUnsigned(t: string)
    ensures var u := Unsigned(t);
            u.Success? ==> var v: int := u.value; Signed(t) == Success(v, u.rest)
  {
  }

  /** A text that does not open with a space is left as it is by `space0`. */
  lemma NoSpaces(s: string)
    requires s != [] && !IsSpace(s[0])
    ensures Space0(s) == s
  {
  }

  /** `multispace0` drops exactly the blanks written before `rest`. */
  lemma MultispacesThen(blanks: string, rest: string)
    requires forall i :: 0 <= i < |blanks| ==> IsMultispace(blanks[i])
    requires rest == [] || !IsMultispace(rest[0])
    ensures Multispace0(blanks + rest) == rest
  {
    SpanOf(blanks, rest, IsMultispace);
    assert (blanks + rest)[|blanks|..] == rest;
  }

  /** `many0(tuple((i64, space0)))`: integers each followed by optional
      spaces, as long as one can be read; never fails. */
  function IntegerList(s: string): (r: (seq<int>, string))
    ensures IsSuffix(r.1, s)
    decreases |s|
  {
    var n := Signed(s);
    if n.Failure? then ([], s)
    else
      var after := Space0(n.rest);
      var more := IntegerList(after);
      SuffixTransitive(after, n.rest, s);
      SuffixTransitive(more.1, after, s);
      ([n.value] + more.0, more.1)
  }

  /** Integers, each followed by one space, then `tail`. */
  function IntegersThen(xs: seq<int>, tail: string): string
    decreases |xs|
  {
    if xs == [] then tail else SignedDecimal(xs[0]) + (" " + IntegersThen(xs[1..], tail))
  }

  /** The text opens with a number as `i64` writes it. */
  predicate StartsNumber(s: string)
  {
    s != [] && (IsDigit(s[0]) || s[0] == '-')
  }

  lemma SignedStart(n: int, rest: string)
    ensures StartsNumber(SignedDecimal(n) + rest)
  {
    if n < 0 {
      FirstOf("-" + Decimal(-n), rest);
    } else {
      FirstOf(Decimal(n), rest);
    }
  }

  /** One integer and its space. */
  lemma SignedSpace(x: int, tail: string)
    requires tail == [] || !IsSpace(tail[0])
    ensures Signed(SignedDecimal(x) + (" " + tail)) == Success(x, " " + tail)
    ensures Space0(" " + tail) == tail
  {
    SignedRoundTrip(x, " " + tail);
    SpacesThen(" ", tail);
  }

  /** `IntegerList` on a text whose first integer reads as given. */
  lemma IntegerListOn(s: string, x: int, afterX: string, xs: seq<int>, rest: string)
    requires Signed(s) == Success(x, afterX)
    requires IntegerList(Space0(afterX)) == (xs, rest)
    ensures IntegerList(s) == ([x] + xs, rest)
  {
  }

  /** A written integer list opens with a number, or is what follows it. */
  lemma IntegersStart(xs: seq<int>, tail: string)
    requires tail == [] || tail[0] == '\n'
    ensures IntegersThen(xs, tail) == [] || !IsSpace(IntegersThen(xs, tail)[0])
  {
    if xs != [] {
      SignedStart(xs[0], " " + IntegersThen(xs[1..], tail));
    }
  }

  /** The integers written by `IntegersThen` are read back, in order, up to
      the line break or the end. */
  lemma {:induction false} IntegerListRoundTrip(xs: seq<int>, tail: string)
    requires tail == [] || tail[0] == '\n'
    ensures IntegerList(IntegersThen(xs, tail)) == (xs, tail)
    decreases |xs|
  {
    if xs != [] {
      var more := IntegersThen(xs[1..], tail);
      IntegersStart(xs[1..], tail);
      SignedSpace(xs[0], more);
      IntegerListRoundTrip(xs[1..], tail);
      IntegerListOn(IntegersThen(xs, tail), xs[0], " " + more, xs[1..], tail);
      HeadTail(xs);
    }
  }

  /** `str::lines`: the text split at `"\n"`, a `"\r"` before the `"\n"`
      dropped, and no empty last line after a final line break. */
  function Lines(text: string): (lines: seq<string>)
    ensures forall i :: 0 <= i < |lines| ==> '\n' !in lines[i]
    ensures text == [] <==> lines == []
    decreases |text|
  {
    if text == [] then []
    else
      var n := SpanLength(text, c => c != '\n');
      var line := text[..n];
      var stripped := if n < |text| && line != [] && line[|line| - 1] == '\r' then line[..|line| - 1] else line;
      assert forall i :: 0 <= i < |stripped| ==> stripped[i] == text[i];
      [stripped] + (if n < |text| then Lines(text[n + 1..]) else [])
  }

  /** The sum of `f` over `xs`. */
  function SumOf<T>(xs: seq<T>, f: T -> int): int
  {
    if xs == [] then 0 else f(xs[0]) + SumOf(xs[1..], f)
  }

  lemma {:induction false} SumOfAppend<T>(a: seq<T>, b: seq<T>, f: T -> int)
    ensures SumOf(a + b, f) == SumOf(a, f) + SumOf(b, f)
  {
    if a == [] {
      assert a + b == b;
    } else {
      assert (a + b)[1..] == a[1..] + b;
      SumOfAppend(a[1..], b, f);
    }
  }

  lemma {:induction false} SumOfNonNegative<T>(xs: seq<T>, f: T -> int)
    requires forall i :: 0 <= i < |xs| ==> f(xs[i]) >= 0
    ensures SumOf(xs, f) >= 0
  {
    if xs != [] {
      SumOfNonNegative(xs[1..], f);
    }
  }
}
