/** Day 9 (day09/src/main.rs): each line is a history of readings; part 1
    extrapolates the next reading and part 2 the one before the first, by
    taking differences until a level is all zero. */
module Day09 {

  import opened Parsing

  // ---------------------------------------------------------------------
  // The grammar.

  /** `parser` (with `line`): the integers of the line, each followed by
      optional spaces; it never fails, so every line gives a history. */
  function ParseLine(s: string): seq<int>
  {
    IntegerList(s).0
  }

  /** A written history reads back. */
  lemma ParseLineRoundTrip(xs: seq<int>)
    ensures ParseLine(IntegersThen(xs, "")) == xs
  {
    IntegerListRoundTrip(xs, "");
  }

  // ---------------------------------------------------------------------
  // Difference levels.

  /** `values.iter().all(|v| *v == 0)`. */
  predicate AllZero(values: seq<int>)
    decreases |values|
  {
    values == [] || (values[0] == 0 && AllZero(values[1..]))
  }

  /** `all` holds exactly when every value is zero. */
  lemma {:induction false} AllZeroMeaning(values: seq<int>)
    ensures AllZero(values) <==> forall i :: 0 <= i < |values| ==> values[i] == 0
    decreases |values|
  {
    if values != [] {
      AllZeroMeaning(values[1..]);
      assert forall i :: 1 <= i < |values| ==> values[i] == values[1..][i - 1];
    }
  }

  /** `windows(2)` mapped to `right - left`. */
  function Differences(values: seq<int>): (d: seq<int>)
    ensures |d| == if values == [] then 0 else |values| - 1
  {
    if |values| < 2 then [] else [values[1] - values[0]] + Differences(values[1..])
  }

  /** Each difference is the right neighbour minus the left one. */
  lemma {:induction false} DifferencesAt(values: seq<int>, i: nat)
    requires i + 1 < |values|
    ensures Differences(values)[i] == values[i + 1] - values[i]
    decreases i
  {
    if i > 0 {
      DifferencesAt(values[1..], i - 1);
    }
  }

  /** `windows(2)` mapped to `left - right`. */
  function BackDifferences(values: seq<int>): (d: seq<int>)
    ensures |d| == if values == [] then 0 else |values| - 1
  {
    if |values| < 2 then [] else [values[0] - values[1]] + BackDifferences(values[1..])
  }

  /** Each backward difference is the left neighbour minus the right one. */
  lemma {:induction false} BackDifferencesAt(values: seq<int>, i: nat)
    requires i + 1 < |values|
    ensures BackDifferences(values)[i] == values[i] - values[i + 1]
    decreases i
  {
    if i > 0 {
      BackDifferencesAt(values[1..], i - 1);
    }
  }

  function Last(values: seq<int>): int
    requires values != []
  {
    values[|values| - 1]
  }

  /** The reading after the history, as part 1 computes it: the last value
      of every level down to the first level that is all zero; `None` where
      a level is empty first (`unwrap` panics). */
  function Extrapolate(values: seq<int>): Option<int>
    decreases |values|
  {
    if values == [] then None
    else if AllZero(values) then Some(Last(values))
    else
      var next := Extrapolate(Differences(values));
      if next.None? then None else Some(Last(values) + next.value)
  }

  /** The reading before the history, as part 2 computes it: the first value
      of every `left - right` level down to the first level that is all
      zero. */
  function ExtrapolateBack(values: seq<int>): Option<int>
    decreases |values|
  {
    if values == [] then None
    else if AllZero(values) then Some(values[0])
    else
      var next := ExtrapolateBack(BackDifferences(values));
      if next.None? then None else Some(values[0] + next.value)
  }

  /** `k` added to a value, a panic staying a panic. */
  function Plus(o: Option<int>, k: int): Option<int>
  {
    if o.None? then None else Some(o.value + k)
  }

  /** One level of part 1's extrapolation. */
  lemma ExtrapolateStep(values: seq<int>)
    requires values != [] && !AllZero(values)
    ensures Extrapolate(values) == Plus(Extrapolate(Differences(values)), Last(values))
  {
  }

  /** One level of part 2's extrapolation. */
  lemma ExtrapolateBackStep(values: seq<int>)
    requires values != [] && !AllZero(values)
    ensures ExtrapolateBack(values) == Plus(ExtrapolateBack(BackDifferences(values)), values[0])
  {
  }

  /** The body of part 1's closure: the `while` loop over the levels. */
  method NextValue(line: seq<int>) returns (r: Option<int>)
    ensures r == Extrapolate(line)
  {
    if line == [] {
      return None;
    }
    var values := line;
    var acc := values[|values| - 1];
    while !AllZero(values)
      invariant values != []
      invariant Extrapolate(line) == Plus(Extrapolate(values), acc - Last(values))
      decreases |values|
    {
      ExtrapolateStep(values);
      values := Differences(values);
      if values == [] {
        return None;
      }
      acc := acc + values[|values| - 1];
    }
    r := Some(acc);
  }

  /** The body of part 2's closure. */
  method PreviousValue(line: seq<int>) returns (r: Option<int>)
    ensures r == ExtrapolateBack(line)
  {
    if line == [] {
      return None;
    }
    var values := line;
    var acc := values[0];
    while !AllZero(values)
      invariant values != []
      invariant ExtrapolateBack(line) == Plus(ExtrapolateBack(values), acc - values[0])
      decreases |values|
    {
      ExtrapolateBackStep(values);
      values := BackDifferences(values);
      if values == [] {
        return None;
      }
      acc := acc + values[0];
    }
    r := Some(acc);
  }

  // ---------------------------------------------------------------------
  // What the extrapolation means.

  /** The `k`-th difference level. */
  function Level(values: seq<int>, k: nat): seq<int>
    decreases k
  {
    if k == 0 then values else Level(Differences(values), k - 1)
  }

  /** A value appended to a history appends one difference. */
  lemma DifferencesAppend(values: seq<int>, x: int)
    requires values != []
    ensures Differences(values + [x]) == Differences(values) + [x - Last(values)]
  {
    var longer := Differences(values + [x]);
    var appended := Differences(values) + [x - Last(values)];
    forall i | 0 <= i < |longer|
      ensures longer[i] == appended[i]
    {
      DifferencesAt(values + [x], i);
      if i + 1 < |values| {
        DifferencesAt(values, i);
      }
    }
  }

  /** A level of zeros stays one with another zero appended. */
  lemma ZeroAppended(values: seq<int>)
    requires AllZero(values)
    ensures values != [] ==> Last(values) == 0
    ensures AllZero(values + [0])
  {
    AllZeroMeaning(values);
    AllZeroMeaning(values + [0]);
  }

  /** The extrapolated reading is the one that keeps the difference table:
      the level that is all zero for the history is still all zero once the
      reading is appended. */
  lemma {:induction false} ExtrapolateMeaning(values: seq<int>)
    requires Extrapolate(values).Some?
    ensures var x := Extrapolate(values).value;
            exists k: nat :: Level(values, k) != [] && AllZero(Level(values, k)) && AllZero(Level(values + [x], k))
    decreases |values|
  {
    var x := Extrapolate(values).value;
    if AllZero(values) {
      ZeroAppended(values);
      assert Level(values, 0) == values && Level(values + [x], 0) == values + [x];
    } else {
      var d := Differences(values);
      var y := Extrapolate(d).value;
      ExtrapolateMeaning(d);
      var k: nat :| Level(d, k) != [] && AllZero(Level(d, k)) && AllZero(Level(d + [y], k));
      DifferencesAppend(values, x);
      assert Level(values, k + 1) == Level(d, k);
      assert Level(values + [x], k + 1) == Level(d + [y], k);
    }
  }

  function Reverse(values: seq<int>): (r: seq<int>)
    ensures |r| == |values|
    ensures forall i :: 0 <= i < |r| ==> r[i] == values[|values| - 1 - i]
  {
    seq(|values|, i requires 0 <= i < |values| => values[|values| - 1 - i])
  }

  /** The `left - right` levels are the ordinary levels of the reversed
      history, reversed. */
  lemma BackDifferencesReversed(values: seq<int>)
    ensures Differences(Reverse(values)) == Reverse(BackDifferences(values))
  {
    var forward := Differences(Reverse(values));
    var back := Reverse(BackDifferences(values));
    forall i | 0 <= i < |forward|
      ensures forward[i] == back[i]
    {
      DifferencesAt(Reverse(values), i);
      BackDifferencesAt(values, |values| - 2 - i);
    }
  }

  /** Part 2 is part 1 on the reversed history. */
  lemma {:induction false} ExtrapolateBackReversed(values: seq<int>)
    ensures ExtrapolateBack(values) == Extrapolate(Reverse(values))
    decreases |values|
  {
    if values != [] {
      var r := Reverse(values);
      assert AllZero(values) <==> AllZero(r) by {
        AllZeroMeaning(values);
        AllZeroMeaning(r);
        if AllZero(r) {
          forall i | 0 <= i < |values|
            ensures values[i] == 0
          {
            assert r[|values| - 1 - i] == values[i];
          }
        }
      }
      if !AllZero(values) {
        BackDifferencesReversed(values);
        ExtrapolateBackReversed(BackDifferences(values));
      }
    }
  }

  /** A history of `n` equal readings `c`. */
  function Constant(c: int, n: nat): (r: seq<int>)
    ensures |r| == n && forall i :: 0 <= i < n ==> r[i] == c
  {
    seq(n, _ => c)
  }

  /** A history of `n` readings going up by `d` from `a`. */
  function Arithmetic(a: int, d: int, n: nat): (r: seq<int>)
    ensures |r| == n && forall i :: 0 <= i < n ==> r[i] == a + i * d
  {
    seq(n, i => a + i * d)
  }

  /** A constant history of two or more readings extrapolates to the same
      reading both ways; so does any history of zeros. */
  lemma ConstantHistory(c: int, n: nat)
    requires n >= 2 || (n >= 1 && c == 0)
    ensures Extrapolate(Constant(c, n)) == Some(c)
    ensures ExtrapolateBack(Constant(c, n)) == Some(c)
  {
    var v := Constant(c, n);
    AllZeroMeaning(v);
    if c != 0 {
      assert v[0] == c;
      var d := Differences(v);
      var b := BackDifferences(v);
      forall i | 0 <= i < |d|
        ensures d[i] == 0 && b[i] == 0
      {
        DifferencesAt(v, i);
        BackDifferencesAt(v, i);
      }
      AllZeroMeaning(d);
      AllZeroMeaning(b);
      assert Last(d) == 0 && b[0] == 0;
      ExtrapolateStep(v);
      ExtrapolateBackStep(v);
    }
  }

  /** A history going up by `d`, of three or more readings, extrapolates to
      the last reading plus `d`, and back to the first reading minus `d`. */
  lemma ArithmeticHistory(a: int, d: int, n: nat)
    requires n >= 3
    ensures Extrapolate(Arithmetic(a, d, n)) == Some(a + (n - 1) * d + d)
    ensures ExtrapolateBack(Arithmetic(a, d, n)) == Some(a - d)
  {
    var v := Arithmetic(a, d, n);
    assert Last(v) == a + (n - 1) * d;
    assert v[0] == a;
    if d == 0 {
      assert v == Constant(a, n);
      ConstantHistory(a, n);
    } else {
      assert !AllZero(v) by {
        AllZeroMeaning(v);
        assert v[1] - v[0] == d;
      }
      ArithmeticDifferences(a, d, n);
      StepForward(v, d);
      StepBack(v, d);
    }
  }

  /** A history whose next level is constant `d` (not zero) extrapolates
      by `d`. */
  lemma StepForward(v: seq<int>, d: int)
    requires |v| >= 3 && d != 0 && !AllZero(v)
    requires Differences(v) == Constant(d, |v| - 1)
    ensures Extrapolate(v) == Some(Last(v) + d)
  {
    var below := Differences(v);
    assert Extrapolate(below) == Some(d) by {
      ConstantHistory(d, |v| - 1);
    }
    ExtrapolateStep(v);
  }

  /** The same for the `left - right` levels, going back. */
  lemma StepBack(v: seq<int>, d: int)
    requires |v| >= 3 && d != 0 && !AllZero(v)
    requires BackDifferences(v) == Constant(-d, |v| - 1)
    ensures ExtrapolateBack(v) == Some(v[0] - d)
  {
    var below := BackDifferences(v);
    assert ExtrapolateBack(below) == Some(-d) by {
      ConstantHistory(-d, |v| - 1);
    }
    ExtrapolateBackStep(v);
  }

  /** The levels below an arithmetic history are constant. */
  lemma ArithmeticDifferences(a: int, d: int, n: nat)
    requires n >= 1
    ensures Differences(Arithmetic(a, d, n)) == Constant(d, n - 1)
    ensures BackDifferences(Arithmetic(a, d, n)) == Constant(-d, n - 1)
  {
    var v := Arithmetic(a, d, n);
    var forward := Differences(v);
    var back := BackDifferences(v);
    forall i | 0 <= i < n - 1
      ensures forward[i] == Constant(d, n - 1)[i]
      ensures back[i] == Constant(-d, n - 1)[i]
    {
      DifferencesAt(v, i);
      BackDifferencesAt(v, i);
      assert v[i + 1] - v[i] == (a + (i + 1) * d) - (a + i * d);
    }
  }

  /** An empty line, a single reading other than zero, and two different
      readings all make `unwrap` panic. */
  lemma Panics(c: int, x: int, y: int)
    requires c != 0 && x != y
    ensures Extrapolate([]) == None && ExtrapolateBack([]) == None
    ensures Extrapolate([c]) == None && ExtrapolateBack([c]) == None
    ensures Extrapolate([x, y]) == None && ExtrapolateBack([x, y]) == None
  {
    assert !AllZero([c]);
    assert !AllZero([x, y]);
    assert !AllZero(Differences([x, y])) by { assert Differences([x, y])[0] == y - x; }
    assert !AllZero(BackDifferences([x, y])) by { assert BackDifferences([x, y])[0] == x - y; }
  }

  // ---------------------------------------------------------------------
  // The two parts.

  /** The reading part 1 (`back` false) or part 2 (`back` true)
      extrapolates for one history. */
  function Value(back: bool, line: seq<int>): Option<int>
  {
    if back then ExtrapolateBack(line) else Extrapolate(line)
  }

  /** The sum of the extrapolated readings; `None` if one of them panics. */
  function Total(lines: seq<seq<int>>, back: bool): Option<int>
    decreases |lines|
  {
    if lines == [] then Some(0)
    else
      var front := Total(lines[..|lines| - 1], back);
      var last := Value(back, lines[|lines| - 1]);
      if front.None? || last.None? then None else Some(front.value + last.value)
  }

  /** `part01`: the sum of the next readings. */
  method Part01(lines: seq<seq<int>>) returns (r: Option<int>)
    ensures r == Total(lines, false)
  {
    var sum := 0;
    for i := 0 to |lines|
      invariant Total(lines[..i], false) == Some(sum)
    {
      var next := NextValue(lines[i]);
      assert lines[..i + 1][..i] == lines[..i];
      if next.None? {
        PanicSpreads(lines, i + 1, false);
        return None;
      }
      sum := sum + next.value;
    }
    assert lines[..|lines|] == lines;
    r := Some(sum);
  }

  /** `part02`: the sum of the readings before. */
  method Part02(lines: seq<seq<int>>) returns (r: Option<int>)
    ensures r == Total(lines, true)
  {
    var sum := 0;
    for i := 0 to |lines|
      invariant Total(lines[..i], true) == Some(sum)
    {
      var previous := PreviousValue(lines[i]);
      assert lines[..i + 1][..i] == lines[..i];
      if previous.None? {
        PanicSpreads(lines, i + 1, true);
        return None;
      }
      sum := sum + previous.value;
    }
    assert lines[..|lines|] == lines;
    r := Some(sum);
  }

  /** A panic on one line is a panic of the whole sum. */
  lemma {:induction false} PanicSpreads(lines: seq<seq<int>>, n: nat, back: bool)
    requires n <= |lines| && Total(lines[..n], back).None?
    ensures Total(lines, back).None?
    decreases |lines| - n
  {
    if n < |lines| {
      assert lines[..n + 1][..n] == lines[..n];
      PanicSpreads(lines, n + 1, back);
    } else {
      assert lines[..n] == lines;
    }
  }

  /** Every history reversed. */
  function ReverseAll(lines: seq<seq<int>>): (r: seq<seq<int>>)
    ensures |r| == |lines|
    decreases |lines|
  {
    if lines == [] then [] else ReverseAll(lines[..|lines| - 1]) + [Reverse(lines[|lines| - 1])]
  }

  /** The whole of part 2 is part 1 on the reversed histories. */
  lemma {:induction false} Part02Reversed(lines: seq<seq<int>>)
    ensures Total(lines, true) == Total(ReverseAll(lines), false)
    decreases |lines|
  {
    if lines != [] {
      var front := lines[..|lines| - 1];
      var reversed := ReverseAll(lines);
      Part02Reversed(front);
      assert reversed[..|lines| - 1] == ReverseAll(front);
      ExtrapolateBackReversed(lines[|lines| - 1]);
    }
  }
}
