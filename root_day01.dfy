/** The calibration scanner of src/main.rs: the same puzzle as day01, but
    `parser` tries a match at every offset of the line, moving on one
    character after each attempt. Its recogniser tries the ten digit
    characters and then the ten digit words. */
module RootDay01 {

  import opened Parsing
  import Day01

  /** A branch of `valid_value`: the literal it matches and the value it gives. */
  datatype Branch = Branch(literal: string, value: nat)

  /** `zero_digit` .. `nine_digit`, then `zero_str` .. `nine_str`. */
  const Branches: seq<Branch> :=
    [Branch("0", 0), Branch("1", 1), Branch("2", 2), Branch("3", 3), Branch("4", 4),
     Branch("5", 5), Branch("6", 6), Branch("7", 7), Branch("8", 8), Branch("9", 9),
     Branch("zero", 0), Branch("one", 1), Branch("two", 2), Branch("three", 3), Branch("four", 4),
     Branch("five", 5), Branch("six", 6), Branch("seven", 7), Branch("eight", 8), Branch("nine", 9)]

  /** `alt`: the first branch whose literal starts `s`. */
  function Alt(s: string, branches: seq<Branch>): Parsed<nat>
  {
    if branches == [] then Failure
    else if StartsWith(s, branches[0].literal) then Success(branches[0].value, s[|branches[0].literal|..])
    else Alt(s, branches[1..])
  }

  /** The branches from `k` on. */
  function AltFrom(s: string, k: nat): Parsed<nat>
    requires k <= |Branches|
  {
    Alt(s, Branches[k..])
  }

  lemma AltFromStep(s: string, k: nat)
    requires k < |Branches|
    ensures AltFrom(s, k) ==
      if StartsWith(s, Branches[k].literal) then Success(Branches[k].value, s[|Branches[k].literal|..])
      else AltFrom(s, k + 1)
  {
    assert Branches[k..][1..] == Branches[k + 1..];
  }

  /** `valid_value`. */
  function ValidValue(s: string): Parsed<nat>
  {
    Alt(s, Branches)
  }

  /** Branch `k` of the first ten is the digit `k`. */
  lemma DigitShape(k: nat)
    requires k < 10
    ensures Branches[k] == Branch([Parsing.DigitChar(k)], k)
  {
  }

  /** Branch `k` of the last ten is the word of digit `k - 10`. */
  lemma WordShape(k: nat)
    requires 10 <= k < |Branches|
    ensures Branches[k] == Branch(Day01.Words[k - 10], k - 10)
  {
  }

  /** The digit branches: branch `k` matches exactly the digit `k`. */
  lemma {:induction false} DigitBranches(s: string, k: nat)
    requires k <= 10
    ensures s != [] && IsDigit(s[0]) && k <= DigitValue(s[0]) ==> AltFrom(s, k) == Success(DigitValue(s[0]), s[1..])
    ensures !(s != [] && IsDigit(s[0])) ==> AltFrom(s, k) == AltFrom(s, 10)
    decreases 10 - k
  {
    if k < 10 {
      DigitStep(s, k);
      DigitBranches(s, k + 1);
    }
  }

  /** Digit branch `k` takes the one character `k` and nothing else. */
  lemma DigitStep(s: string, k: nat)
    requires k < 10
    ensures AltFrom(s, k) == if s != [] && s[0] == Parsing.DigitChar(k) then Success(k, s[1..]) else AltFrom(s, k + 1)
    ensures s != [] && IsDigit(s[0]) ==> (s[0] == Parsing.DigitChar(k) <==> DigitValue(s[0]) == k)
  {
    DigitShape(k);
    AltFromStep(s, k);
    OneCharacter(s, Parsing.DigitChar(k));
  }

  lemma OneCharacter(s: string, c: char)
    ensures StartsWith(s, [c]) <==> s != [] && s[0] == c
  {
    if s != [] && s[0] == c {
      assert s[..1] == [c];
    }
  }

  /** The word branches are `Day01`'s word branches. */
  lemma {:induction false} WordBranches(s: string, k: nat)
    requires 10 <= k <= |Branches|
    ensures AltFrom(s, k) == Day01.WordFrom(s, k - 10)
    decreases |Branches| - k
  {
    if k < |Branches| {
      WordShape(k);
      AltFromStep(s, k);
      WordBranches(s, k + 1);
    }
  }

  /** The twenty-branch recogniser of src/main.rs and the digit-then-words
      recogniser of day01 agree on every input: digits first, then the words
      "zero" .. "nine", each read as its digit value. */
  lemma SameRecogniser(s: string)
    ensures ValidValue(s) == Day01.ValidValue(s)
  {
    assert Branches[0..] == Branches;
    DigitBranches(s, 0);
    WordBranches(s, 10);
  }

  /** What `parser` finds: one attempt at every offset, left to right. */
  function EveryOffset(s: string): seq<nat>
    decreases |s|
  {
    if s == [] then []
    else
      var r := ValidValue(s);
      (if r.Success? then [r.value] else []) + EveryOffset(s[1..])
  }

  /** `parser`: every iteration advances exactly one character. */
  method Parser(line: string) returns (output: seq<nat>)
    ensures output == EveryOffset(line)
    ensures |output| <= |line|
  {
    var input := line;
    output := [];
    while input != []
      invariant output + EveryOffset(input) == EveryOffset(line)
      invariant |output| + |input| <= |line|
      decreases |input|
    {
      EveryOffsetStep(input);
      var res := ValidValue(input);
      if res.Success? {
        output := output + [res.value];
      }
      input := input[1..];
    }
    OffsetsBounded(input);
  }

  lemma EveryOffsetStep(s: string)
    requires s != []
    ensures EveryOffset(s) == (if ValidValue(s).Success? then [ValidValue(s).value] else []) + EveryOffset(s[1..])
  {
  }

  /** At most one value per character. */
  lemma {:induction false} OffsetsBounded(s: string)
    ensures |EveryOffset(s)| <= |s|
    decreases |s|
  {
    if s != [] {
      OffsetsBounded(s[1..]);
    }
  }

  /** A digit word at the start of the text is found there, and the scan
      goes on from the word's last letter, so a word overlapping it there
      (the "eight" of "oneight") is found too. */
  lemma Overlap(s: string, k: nat)
    requires k < |Day01.Words| && StartsWith(s, Day01.Words[k])
    ensures EveryOffset(s) == [k] + EveryOffset(s[|Day01.Words[k]| - 1..])
  {
    Day01.WordLengths(k);
    WordOffset(s, k);
    SkipInside(s, k, 1);
  }

  /** A digit word at the start of the text is found there. */
  lemma WordOffset(s: string, k: nat)
    requires k < |Day01.Words| && StartsWith(s, Day01.Words[k])
    ensures EveryOffset(s) == [k] + EveryOffset(s[1..])
  {
    WordValue(s, k);
    EveryOffsetStep(s);
  }

  /** `valid_value` reads a digit word at the start of the text. */
  lemma WordValue(s: string, k: nat)
    requires k < |Day01.Words| && StartsWith(s, Day01.Words[k])
    ensures ValidValue(s) == Success(k, s[|Day01.Words[k]|..])
  {
    var rest := s[|Day01.Words[k]|..];
    assert s == Day01.Words[k] + rest;
    SameRecogniser(s);
    Day01.WordRoundTrip(k, rest);
  }

  /** Nothing is recognised where a letter starts no word. */
  lemma NoValueAt(s: string, a: char, b: char)
    requires s != [] && s[0] == a && !IsDigit(a)
    requires |s| >= 2 ==> s[1] == b
    requires (a, b) !in Day01.WordStarts
    ensures ValidValue(s).Failure?
  {
    SameRecogniser(s);
    Day01.WordFromFails(s, 0);
  }

  // ---------------------------------------------------------------------
  // The two scanners find the same values.

  /** Inside a word, before its last letter, no value starts: no digit
      word begins with two letters that occur together inside another
      word before its last letter. */
  lemma InnerOffsets(k: nat, j: nat)
    requires k < |Day01.Words| && 1 <= j <= |Day01.Words[k]| - 2
    ensures (Day01.Words[k][j], Day01.Words[k][j + 1]) !in Day01.WordStarts
    ensures !IsDigit(Day01.Words[k][j])
  {
  }

  /** The offsets strictly inside a word, before its last letter, hold no
      value. */
  lemma {:induction false} SkipInside(s: string, k: nat, j: nat)
    requires k < |Day01.Words| && StartsWith(s, Day01.Words[k])
    requires 1 <= j <= |Day01.Words[k]| - 1
    ensures EveryOffset(s[j..]) == EveryOffset(s[|Day01.Words[k]| - 1..])
    decreases |Day01.Words[k]| - j
  {
    if j < |Day01.Words[k]| - 1 {
      NoValueInside(s, k, j);
      SkipInside(s, k, j + 1);
    }
  }

  /** Offset `j` strictly inside a word, before its last letter, holds no
      value. */
  lemma NoValueInside(s: string, k: nat, j: nat)
    requires k < |Day01.Words| && StartsWith(s, Day01.Words[k])
    requires 1 <= j < |Day01.Words[k]| - 1
    ensures EveryOffset(s[j..]) == EveryOffset(s[j + 1..])
  {
    var w := Day01.Words[k];
    InnerOffsets(k, j);
    assert s[j] == w[j] && s[j + 1] == w[j + 1];
    NoValueAt(s[j..], w[j], w[j + 1]);
    EveryOffsetStep(s[j..]);
    assert s[j..][1..] == s[j + 1..];
  }

  /** The last letter of a word ending the line starts nothing. */
  lemma LastLetter(s: string, k: nat)
    requires k < |Day01.Words| && StartsWith(s, Day01.Words[k]) && |s| == |Day01.Words[k]|
    ensures EveryOffset(s[|s| - 1..]) == []
  {
    var t := s[|s| - 1..];
    Day01.WordLengths(k);
    assert !IsDigit(t[0]);
    assert t[1..] == [];
    NoValueAt(t, t[0], t[0]);
  }

  /** day01's scan, which skips to a word's last letter after a match and
      stops once a match reaches the end, finds exactly the values of the
      scan that tries every offset: the skipped offsets never hold one. */
  lemma {:induction false} SameValues(s: string)
    ensures Day01.Values(s) == EveryOffset(s)
    decreases |s|
  {
    if s != [] {
      var r := Day01.ValidValue(s);
      SameRecogniser(s);
      Day01.ValidValueMeans(s);
      Day01.ValidValueProgress(s);
      if r.Failure? {
        SameValues(s[1..]);
      } else if IsDigit(s[0]) {
        if r.rest != [] {
          SameValues(s[1..]);
        }
      } else {
        var k := r.value;
        var n := |Day01.Words[k]|;
        Day01.WordLengths(k);
        SkipInside(s, k, 1);
        if r.rest == [] {
          LastLetter(s, k);
        } else {
          assert Day01.Max(1, |s| - |r.rest| - 1) == n - 1;
          SameValues(s[n - 1..]);
        }
      }
    }
  }

  /** The calibration value of a line, as `main` computes it. */
  function LineValue(line: string): int
  {
    var v := EveryOffset(line);
    if v == [] then 0 else 10 * v[0] + v[|v| - 1]
  }

  /** One more line in the sum. */
  lemma SumStep(lines: seq<string>, i: nat)
    requires i < |lines|
    ensures SumOf(lines[..i + 1], LineValue) == SumOf(lines[..i], LineValue) + LineValue(lines[i])
  {
    SumOfAppend(lines[..i], [lines[i]], LineValue);
    assert lines[..i + 1] == lines[..i] + [lines[i]];
  }

  /** The `for line in reader.lines()` loop of `main`: lines with no
      value are skipped, the others add 10 * first + last. It prints the
      same sum as day01. */
  method CalibrationSum(text: string) returns (sum: int)
    ensures sum == SumOf(Lines(text), LineValue)
    ensures sum == Day01.Total(text)
    ensures 0 <= sum <= 99 * |Lines(text)|
  {
    var lines := Lines(text);
    sum := 0;
    var i := 0;
    while i < |lines|
      invariant 0 <= i <= |lines|
      invariant sum == SumOf(lines[..i], LineValue)
    {
      var output := Parser(lines[i]);
      SumStep(lines, i);
      if output != [] {
        var first := output[0] * 10;
        var last := output[|output| - 1];
        sum := sum + first + last;
      }
      i := i + 1;
    }
    assert lines[..i] == lines;
    SameTotal(lines);
    Day01.TotalBounds(lines);
  }

  lemma {:induction false} SameTotal(lines: seq<string>)
    ensures SumOf(lines, LineValue) == SumOf(lines, Day01.LineValue)
  {
    if lines != [] {
      SameValues(lines[0]);
      SameTotal(lines[1..]);
    }
  }
}
