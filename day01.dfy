/** The calibration scanner of day01/src/main.rs: every line is scanned for
    digits and the spelled-out digit words "zero" .. "nine"; after a word the
    scan resumes at the word's last character, so that overlapping words
    such as "eightwo" are both found. A line's calibration value is ten
    times its first value plus its last value. */
module Day01 {

  import opened Parsing

  /** The digit words, each at the index of the value it spells. */
  const Words: seq<string> :=
    ["zero", "one", "two", "three", "four", "five", "six", "seven", "eight", "nine"]

  /** The first two letters of every digit word. */
  const WordStarts: set<(char, char)> :=
    {('z', 'e'), ('o', 'n'), ('t', 'w'), ('t', 'h'), ('f', 'o'),
     ('f', 'i'), ('s', 'i'), ('s', 'e'), ('e', 'i'), ('n', 'i')}

  /** `digit_value`: any ASCII digit, read as its value. */
  function DigitValueParser(s: string): (r: Parsed<nat>)
    ensures r.Success? <==> s != [] && IsDigit(s[0])
    ensures r.Success? ==> r.value == DigitValue(s[0]) && r.value <= 9 && r.rest == s[1..]
  {
    if s != [] && IsDigit(s[0]) then Success(DigitValue(s[0]), s[1..]) else Failure
  }

  /** The `value(k, tag(...))` branches of `valid_value`, from word `k` on. */
  function WordFrom(s: string, k: nat): Parsed<nat>
    requires k <= |Words|
    decreases |Words| - k
  {
    if k == |Words| then Failure
    else if StartsWith(s, Words[k]) then Success(k, s[|Words[k]|..])
    else WordFrom(s, k + 1)
  }

  /** `valid_value`: a digit first, then the ten words in order. */
  function ValidValue(s: string): Parsed<nat>
  {
    var d := DigitValueParser(s);
    if d.Success? then d else WordFrom(s, 0)
  }

  lemma WordLengths(k: nat)
    requires k < |Words|
    ensures 3 <= |Words[k]| <= 5
    ensures (Words[k][0], Words[k][1]) in WordStarts
    ensures !IsDigit(Words[k][0])
  {
  }

  /** No word is matched where the first two characters start no word. */
  lemma {:induction false} WordFromFails(s: string, k: nat)
    requires k <= |Words|
    requires |s| < 2 || (s[0], s[1]) !in WordStarts
    ensures WordFrom(s, k).Failure?
    decreases |Words| - k
  {
    if k < |Words| {
      WordLengths(k);
      WordFromFails(s, k + 1);
    }
  }

  /** Word `k` is only matched by branch `k`: no two words share their
      first two letters. */
  lemma {:induction false} WordFromFinds(s: string, j: nat, k: nat)
    requires j <= k < |Words| && StartsWith(s, Words[k])
    ensures WordFrom(s, j) == Success(k, s[|Words[k]|..])
    decreases k - j
  {
    WordLengths(k);
    if j < k {
      assert Words[j][..2] != Words[k][..2];
      assert s[..2] == Words[k][..2];
      WordFromFinds(s, j + 1, k);
    }
  }

  /** What `valid_value` recognises: a digit, or exactly one of the words;
      it fails only when neither starts the input. */
  lemma ValidValueMeans(s: string)
    ensures s != [] && IsDigit(s[0]) ==> ValidValue(s) == Success(DigitValue(s[0]), s[1..])
    ensures forall k :: 0 <= k < |Words| && StartsWith(s, Words[k]) ==> ValidValue(s) == Success(k, s[|Words[k]|..])
    ensures ValidValue(s).Success? ==>
      (s != [] && IsDigit(s[0])) || (ValidValue(s).value < |Words| && StartsWith(s, Words[ValidValue(s).value]))
  {
    forall k | 0 <= k < |Words| && StartsWith(s, Words[k])
      ensures ValidValue(s) == Success(k, s[|Words[k]|..])
    {
      WordLengths(k);
      WordFromFinds(s, 0, k);
    }
    if !(s != [] && IsDigit(s[0])) && ValidValue(s).Success? {
      WordFromSound(s, 0);
    }
  }

  lemma {:induction false} WordFromSound(s: string, k: nat)
    requires k <= |Words|
    ensures WordFrom(s, k).Success? ==>
      k <= WordFrom(s, k).value < |Words| && StartsWith(s, Words[WordFrom(s, k).value])
    decreases |Words| - k
  {
    if k < |Words| && !StartsWith(s, Words[k]) {
      WordFromSound(s, k + 1);
    }
  }

  /** A word written out is read back as its value. */
  lemma WordRoundTrip(k: nat, rest: string)
    requires k < |Words|
    ensures ValidValue(Words[k] + rest) == Success(k, rest)
  {
    var s := Words[k] + rest;
    assert s[..|Words[k]|] == Words[k];
    assert s[|Words[k]|..] == rest;
    ValidValueMeans(s);
  }

  /** The values `parser` finds in `s`: after a match that leaves nothing the
      scan stops; otherwise it resumes `max(1, consumed - 1)` characters on,
      and after no match one character on. */
  function Values(s: string): seq<nat>
    decreases |s|
  {
    if s == [] then []
    else
      var r := ValidValue(s);
      if r.Failure? then Values(s[1..])
      else if r.rest == [] then [r.value]
      else [r.value] + Values(s[Max(1, |s| - |r.rest| - 1)..])
  }

  function Max(a: int, b: int): int { if a < b then b else a }

  /** `valid_value` always consumes part of what it reads. */
  lemma ValidValueProgress(s: string)
    ensures ValidValue(s).Success? ==> IsSuffix(ValidValue(s).rest, s) && |ValidValue(s).rest| < |s|
    ensures ValidValue(s).Success? ==> ValidValue(s).value <= 9
  {
    ValidValueMeans(s);
    if ValidValue(s).Success? && !(s != [] && IsDigit(s[0])) {
      WordLengths(ValidValue(s).value);
    }
  }

  /** `parser`: every iteration of its loop strictly shortens `input`. */
  method Parser(line: string) returns (output: seq<nat>)
    ensures output == Values(line)
  {
    var input := line;
    output := [];
    while input != []
      invariant output + Values(input) == Values(line)
      decreases |input|
    {
      var res := ValidValue(input);
      ValidValueProgress(input);
      if res.Success? {
        output := output + [res.value];
        if res.rest == [] {
          input := [];
        } else {
          var start := Max(1, |input| - |res.rest| - 1);
          input := input[start..];
        }
      } else {
        input := input[1..];
      }
    }
  }

  /** Every value found is a digit value. */
  lemma {:induction false} ValuesAreDigits(s: string)
    ensures forall i :: 0 <= i < |Values(s)| ==> Values(s)[i] <= 9
    decreases |s|
  {
    if s != [] {
      var r := ValidValue(s);
      ValidValueProgress(s);
      if r.Failure? {
        ValuesAreDigits(s[1..]);
      } else if r.rest != [] {
        ValuesAreDigits(s[Max(1, |s| - |r.rest| - 1)..]);
      }
    }
  }

  /** Two overlapping words are both found. */
  lemma EightTwo()
    ensures Values("eightwo") == [8, 2]
  {
    WordRoundTrip(8, "wo");
    assert "eightwo" == Words[8] + "wo";
    var t := "eightwo"[4..];
    assert t == "two";
    WordRoundTrip(2, "");
    assert t == Words[2] + "";
  }

  /** The calibration value of a line: 10 * first + last, or nothing
      (the `filter_map` of `main`) when the line holds no value. */
  function LineValue(line: string): int
  {
    var v := Values(line);
    if v == [] then 0 else 10 * v[0] + v[|v| - 1]
  }

  /** The sum `main` prints for the text of the input file. */
  function Total(text: string): int
  {
    SumOf(Lines(text), LineValue)
  }

  /** Every line adds between 0 and 99, and a line adds 0 exactly when it
      has no value or its only values are zeros. */
  lemma LineValueBounds(line: string)
    ensures 0 <= LineValue(line) <= 99
    ensures LineValue(line) == 0 <==> Values(line) == [] || (Values(line)[0] == 0 && Values(line)[|Values(line)| - 1] == 0)
  {
    ValuesAreDigits(line);
  }

  lemma {:induction false} TotalBounds(lines: seq<string>)
    ensures 0 <= SumOf(lines, LineValue) <= 99 * |lines|
  {
    if lines != [] {
      LineValueBounds(lines[0]);
      TotalBounds(lines[1..]);
    }
  }
}
