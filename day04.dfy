/** Day 4 (day04/src/main.rs): scratchcards. A card line
    "Card N: w1 w2 ... | n1 n2 ..." holds the card's id, its winning numbers
    and the numbers it has; a card wins once for every number it has that is
    also a winning number. */
module Day04 {

  import opened Parsing

  /** `Card`: the id and the two number sets, duplicates collapsed. */
  datatype Card = Card(id: nat, winning: set<nat>, numbers: set<nat>)

  // ---------------------------------------------------------------------
  // The grammar.

  /** The elements of a list, as a set (`collect::<HashSet<_>>`). */
  function SetOf(xs: seq<nat>): set<nat>
  {
    set x | x in xs
  }

  /** `many0(tuple((u64, space0)))`: numbers each followed by optional
      spaces, as long as one can be read; never fails. */
  function NumberList(s: string): (r: (seq<nat>, string))
    ensures IsSuffix(r.1, s)
    decreases |s|
  {
    var u := Unsigned(s);
    if u.Failure? then ([], s)
    else
      var after := Space0(u.rest);
      var more := NumberList(after);
      SuffixTransitive(after, u.rest, s);
      SuffixTransitive(more.1, after, s);
      ([u.value] + more.0, more.1)
  }

  /** `numbers`: the list read by `NumberList`, collected into a set. */
  function Numbers(s: string): (r: Parsed<set<nat>>)
    ensures r.Success? && IsSuffix(r.rest, s)
  {
    var l := NumberList(s);
    Success(SetOf(l.0), l.1)
  }

  /** `separator`: optional spaces, `|`, optional spaces. */
  function Separator(s: string): (r: Option<string>)
    ensures r.Some? <==> Space0(s) != [] && Space0(s)[0] == '|'
  {
    var bar := Char('|', Space0(s));
    if bar.Failure? then None else Some(Space0(bar.rest))
  }

  /** "Card", optional spaces, the id, `:` and optional spaces. */
  function CardHead(s: string): (r: Parsed<nat>)
  {
    var t := Tag("Card", s);
    if t.None? then Failure
    else
      var n := Unsigned(Space0(t.value));
      if n.Failure? then Failure
      else
        var colon := Char(':', n.rest);
        if colon.Failure? then Failure
        else Success(n.value, Space0(colon.rest))
  }

  /** `card`: the head, the winning numbers, the separator and the numbers
      the card has. */
  function CardParser(s: string): (r: Parsed<Card>)
  {
    var head := CardHead(s);
    if head.Failure? then Failure
    else
      var winning := Numbers(head.rest);
      var sep := Separator(winning.rest);
      if sep.None? then Failure
      else
        var numbers := Numbers(sep.value);
        Success(Card(head.value, winning.value, numbers.value), numbers.rest)
  }

  /** `parser`: the card of a line, whatever follows it; `None` when the
      line is not a card. */
  function Parser(line: string): Option<Card>
  {
    var c := CardParser(line);
    if c.Failure? then None else Some(c.value)
  }

  /** A line that does not open with "Card" is dropped. */
  lemma NotACard(line: string)
    requires !StartsWith(line, "Card")
    ensures Parser(line) == None
  {
  }

  // ---------------------------------------------------------------------
  // Writing a card back as text.

  /** Numbers, each followed by one space. */
  function NumbersText(xs: seq<nat>): (s: string)
    ensures s == [] || IsDigit(s[0])
    decreases |xs|
  {
    if xs == [] then [] else Decimal(xs[0]) + (" " + NumbersText(xs[1..]))
  }

  /** "Card N: winning | numbers", one space between the parts. */
  function CardText(id: nat, winning: seq<nat>, numbers: seq<nat>): string
  {
    "Card" + (" " + (Decimal(id) + (": " + (NumbersText(winning) + ("| " + NumbersText(numbers))))))
  }

  /** One number, its space, and what follows. */
  lemma NumberListStep(x: nat, tail: string)
    requires tail == [] || IsDigit(tail[0]) || tail[0] == '|'
    ensures Unsigned(Decimal(x) + (" " + tail)) == Success(x, " " + tail)
    ensures Space0(" " + tail) == tail
  {
    UnsignedRoundTrip(x, " " + tail);
    SpacesThen(" ", tail);
  }

  /** The numbers written by `NumbersText` are read back, in order. */
  lemma {:induction false} NumberListRoundTrip(xs: seq<nat>, rest: string)
    requires rest == [] || rest[0] == '|'
    ensures NumberList(NumbersText(xs) + rest) == (xs, rest)
    decreases |xs|
  {
    if xs == [] {
      AppendNothing(rest);
    } else {
      var tail := NumbersText(xs[1..]) + rest;
      AppendAssoc(Decimal(xs[0]), " " + NumbersText(xs[1..]), rest);
      AppendAssoc(" ", NumbersText(xs[1..]), rest);
      if NumbersText(xs[1..]) != [] {
        FirstOf(NumbersText(xs[1..]), rest);
      } else {
        AppendNothing(rest);
      }
      NumberListStep(xs[0], tail);
      NumberListRoundTrip(xs[1..], rest);
      HeadTail(xs);
    }
  }

  /** "Card" opens a written card. */
  lemma CardTag(afterTag: string)
    ensures Tag("Card", "Card" + afterTag) == Some(afterTag)
  {
    StartsWithAppend("Card", afterTag);
  }

  /** The id of a written card, after its space. */
  lemma IdOfCard(id: nat, afterId: string)
    requires afterId != [] && afterId[0] == ':'
    ensures Space0(" " + (Decimal(id) + afterId)) == Decimal(id) + afterId
    ensures Unsigned(Decimal(id) + afterId) == Success(id, afterId)
  {
    FirstOf(Decimal(id), afterId);
    SpacesThen(" ", Decimal(id) + afterId);
    UnsignedRoundTrip(id, afterId);
  }

  /** The colon of a written card and the space after it. */
  lemma ColonOfCard(body: string)
    requires body == [] || IsDigit(body[0]) || body[0] == '|'
    ensures Char(':', ": " + body) == Success(':', " " + body)
    ensures Space0(" " + body) == body
  {
    AppendAssoc(":", " ", body);
    StartsWithAppend(":", " " + body);
    SpacesThen(" ", body);
  }

  /** `CardHead` on a text whose parts read as given. */
  lemma CardHeadOn(s: string, afterTag: string, id: nat, afterId: string, body: string)
    requires Tag("Card", s) == Some(afterTag)
    requires Unsigned(Space0(afterTag)) == Success(id, afterId)
    requires Char(':', afterId) == Success(':', " " + body)
    requires Space0(" " + body) == body
    ensures CardHead(s) == Success(id, body)
  {
  }

  /** The head of a written card. */
  lemma CardHeadRoundTrip(id: nat, body: string)
    requires body == [] || IsDigit(body[0]) || body[0] == '|'
    ensures CardHead("Card" + (" " + (Decimal(id) + (": " + body)))) == Success(id, body)
  {
    var afterId := ": " + body;
    var afterTag := " " + (Decimal(id) + afterId);
    CardTag(afterTag);
    FirstOf(": ", body);
    IdOfCard(id, afterId);
    ColonOfCard(body);
    CardHeadOn("Card" + afterTag, afterTag, id, afterId, body);
  }

  /** The bar of a written card and the space after it. */
  lemma BarOf(numbers: string)
    requires numbers == [] || IsDigit(numbers[0])
    ensures Char('|', "| " + numbers) == Success('|', " " + numbers)
    ensures Space0(" " + numbers) == numbers
  {
    AppendAssoc("|", " ", numbers);
    StartsWithAppend("|", " " + numbers);
    SpacesThen(" ", numbers);
  }

  /** The separator of a written card. */
  lemma SeparatorRoundTrip(numbers: string)
    requires numbers == [] || IsDigit(numbers[0])
    ensures Separator("| " + numbers) == Some(numbers)
  {
    FirstOf("| ", numbers);
    NoSpaces("| " + numbers);
    BarOf(numbers);
  }

  /** `CardParser` on a text whose parts read as given. */
  lemma CardParserOn(s: string, id: nat, body: string, w: seq<nat>, afterW: string,
                     afterSep: string, n: seq<nat>, rest: string)
    requires CardHead(s) == Success(id, body)
    requires NumberList(body) == (w, afterW)
    requires Separator(afterW) == Some(afterSep)
    requires NumberList(afterSep) == (n, rest)
    ensures CardParser(s) == Success(Card(id, SetOf(w), SetOf(n)), rest)
  {
  }

  /** A written card is read back: the id, and the two lists as sets, so
      repeated numbers collapse. */
  lemma CardRoundTrip(id: nat, winning: seq<nat>, numbers: seq<nat>)
    ensures Parser(CardText(id, winning, numbers)) == Some(Card(id, SetOf(winning), SetOf(numbers)))
  {
    var tail := "| " + NumbersText(numbers);
    var body := NumbersText(winning) + tail;
    if NumbersText(winning) != [] {
      FirstOf(NumbersText(winning), tail);
    } else {
      AppendNothing(tail);
    }
    CardHeadRoundTrip(id, body);
    NumberListRoundTrip(winning, tail);
    SeparatorRoundTrip(NumbersText(numbers));
    NumberListRoundTrip(numbers, []);
    AppendNothing(NumbersText(numbers));
    CardParserOn(CardText(id, winning, numbers), id, body, winning, tail,
                 NumbersText(numbers), numbers, []);
  }

  // ---------------------------------------------------------------------
  // `Card::wins`, `Card::points`, `Card::win_set`.

  /** `wins`: how many of the card's numbers are winning numbers. */
  function Wins(c: Card): (w: nat)
  {
    |c.numbers * c.winning|
  }

  /** A subset is no larger, and as large only when equal. */
  lemma {:induction false} SubsetSize(a: set<nat>, b: set<nat>)
    requires a <= b
    ensures |a| <= |b|
    ensures |a| == |b| ==> a == b
    decreases b
  {
    if a != {} {
      var x :| x in a;
      SubsetSize(a - {x}, b - {x});
      assert a == (a - {x}) + {x};
      assert b == (b - {x}) + {x};
    } else if |b| == 0 {
      assert b == {};
    }
  }

  /** The wins are bounded by both sets, reach the count of the card's
      numbers exactly when every one of them is a winning number, and are
      zero exactly when the two sets are disjoint. */
  lemma WinsMeaning(c: Card)
    ensures Wins(c) <= |c.numbers| && Wins(c) <= |c.winning|
    ensures Wins(c) == |c.numbers| <==> c.numbers <= c.winning
    ensures Wins(c) == 0 <==> c.numbers !! c.winning
  {
    SubsetSize(c.numbers * c.winning, c.numbers);
    SubsetSize(c.numbers * c.winning, c.winning);
    if c.numbers <= c.winning {
      assert c.numbers * c.winning == c.numbers;
    }
    if c.numbers !! c.winning {
      assert c.numbers * c.winning == {};
    }
  }

  /** `2^n`. */
  function Pow2(n: nat): (p: nat)
    ensures p >= 1
  {
    if n == 0 then 1 else 2 * Pow2(n - 1)
  }

  /** `points`: nothing without a win, else `2^(wins - 1)`. */
  function Points(c: Card): (p: nat)
    ensures p == 0 <==> Wins(c) == 0
  {
    if Wins(c) == 0 then 0 else Pow2(Wins(c) - 1)
  }

  /** The puzzle's scoring rule, one match at a time: the first match is
      worth one point and every further match doubles the score. */
  function Score(matches: nat): nat
  {
    if matches == 0 then 0 else if matches == 1 then 1 else 2 * Score(matches - 1)
  }

  /** `points` follows the doubling rule. */
  lemma {:induction false} PointsMeaning(c: Card)
    ensures Points(c) == Score(Wins(c))
  {
    ScoreIsPower(Wins(c));
  }

  lemma {:induction false} ScoreIsPower(k: nat)
    ensures k > 0 ==> Score(k) == Pow2(k - 1)
  {
    if k > 1 {
      ScoreIsPower(k - 1);
    }
  }

  /** `win_set`: the ids after the card's own, one per win. */
  function WinSet(c: Card): (r: seq<nat>)
    ensures |r| == Wins(c)
  {
    seq(Wins(c), i => c.id + 1 + i)
  }

  /** The ids won are strictly increasing, and are exactly the ids after
      the card's own, up to its id plus its wins. */
  lemma WinSetMeaning(c: Card)
    ensures forall i, j :: 0 <= i < j < |WinSet(c)| ==> WinSet(c)[i] < WinSet(c)[j]
    ensures forall k :: k in WinSet(c) <==> c.id < k <= c.id + Wins(c)
  {
    forall k | c.id < k <= c.id + Wins(c)
      ensures k in WinSet(c)
    {
      assert WinSet(c)[k - c.id - 1] == k;
    }
  }

  // ---------------------------------------------------------------------
  // `part01`.

  /** `filter_map`: the values `f` gives, in order, skipping `None`. */
  function FilterMap<T>(lines: seq<string>, f: string -> Option<T>): (r: seq<T>)
    ensures |r| <= |lines|
  {
    if lines == [] then []
    else
      var c := f(lines[0]);
      (if c.Some? then [c.value] else []) + FilterMap(lines[1..], f)
  }

  /** Filtering two blocks of lines filters each in turn. */
  lemma {:induction false} FilterMapAppend<T>(a: seq<string>, b: seq<string>, f: string -> Option<T>)
    ensures FilterMap(a + b, f) == FilterMap(a, f) + FilterMap(b, f)
    decreases |a|
  {
    if a == [] {
      assert a + b == b;
    } else {
      var c := f(a[0]);
      var head: seq<T> := if c.Some? then [c.value] else [];
      assert (a + b)[0] == a[0];
      assert (a + b)[1..] == a[1..] + b;
      assert FilterMap(a + b, f) == head + FilterMap(a[1..] + b, f);
      assert FilterMap(a, f) == head + FilterMap(a[1..], f);
      FilterMapAppend(a[1..], b, f);
      assert head + (FilterMap(a[1..], f) + FilterMap(b, f)) == (head + FilterMap(a[1..], f)) + FilterMap(b, f);
    }
  }

  /** The cards of the lines that parse, in order. */
  function Cards(lines: seq<string>): seq<Card>
  {
    FilterMap(lines, Parser)
  }

  /** `part01`: the points of every card. */
  function Part01(lines: seq<string>): int
  {
    SumOf(Cards(lines), Points)
  }

  /** Part 1 adds up line by line: unparseable lines add nothing. */
  lemma Part01Append(a: seq<string>, b: seq<string>)
    ensures Part01(a + b) == Part01(a) + Part01(b)
  {
    FilterMapAppend(a, b, Parser);
    SumOfAppend(Cards(a), Cards(b), Points);
  }

  // ---------------------------------------------------------------------
  // `part02`.

  /** The count the map holds for `k`, 0 when it holds none. */
  function CountOf(m: map<nat, nat>, k: nat): nat
  {
    if k in m then m[k] else 0
  }

  /** Adding `c` copies to every id of `ids`, in order. */
  function Credit(m: map<nat, nat>, ids: seq<nat>, c: nat): map<nat, nat>
    decreases |ids|
  {
    if ids == [] then m else Credit(m[ids[0] := CountOf(m, ids[0]) + c], ids[1..], c)
  }

  /** The copies of the card at position `i`: the copies won by the cards
      before it, plus the card itself. */
  function Own(cards: seq<Card>, i: nat): nat
    requires i < |cards|
  {
    CountOf(Tally(cards[..i]), cards[i].id) + 1
  }

  /** The count map after the cards: each card adds itself to its own
      count, then adds its count to every id it wins. */
  function Tally(cards: seq<Card>): map<nat, nat>
    decreases |cards|
  {
    if cards == [] then map[]
    else
      var m := Tally(cards[..|cards| - 1]);
      var last := cards[|cards| - 1];
      var own := CountOf(m, last.id) + 1;
      Credit(m[last.id := own], WinSet(last), own)
  }

  /** The sum of the counts in a map. */
  ghost function MapSum(m: map<nat, nat>): nat
    decreases |m.Keys|
  {
    if m.Keys == {} then 0
    else
      var k :| k in m;
      assert (m - {k}).Keys < m.Keys;
      m[k] + MapSum(m - {k})
  }

  /** The sum does not depend on which key is taken out first. */
  lemma {:induction false} MapSumRemove(m: map<nat, nat>, k: nat)
    requires k in m
    ensures MapSum(m) == m[k] + MapSum(m - {k})
    decreases |m.Keys|
  {
    var j :| j in m && MapSum(m) == m[j] + MapSum(m - {j});
    if j != k {
      assert (m - {j}).Keys < m.Keys;
      assert (m - {k}).Keys < m.Keys;
      MapSumRemove(m - {j}, k);
      MapSumRemove(m - {k}, j);
      assert m - {j} - {k} == m - {k} - {j};
    }
  }

  /** Setting one key changes the sum by the difference. */
  lemma MapSumUpdate(m: map<nat, nat>, k: nat, v: nat)
    ensures MapSum(m[k := v]) == MapSum(m) - CountOf(m, k) + v
  {
    MapSumRemove(m[k := v], k);
    assert m[k := v] - {k} == m - {k};
    if k in m {
      MapSumRemove(m, k);
    } else {
      assert m - {k} == m;
    }
  }

  /** Crediting `c` copies to each of `ids` adds `|ids| * c` to the sum. */
  lemma {:induction false} CreditSum(m: map<nat, nat>, ids: seq<nat>, c: nat)
    ensures MapSum(Credit(m, ids, c)) == MapSum(m) + |ids| * c
    decreases |ids|
  {
    if ids != [] {
      var next := m[ids[0] := CountOf(m, ids[0]) + c];
      MapSumUpdate(m, ids[0], CountOf(m, ids[0]) + c);
      CreditSum(next, ids[1..], c);
      SuccTimes(|ids[1..]|, c);
    }
  }

  lemma SuccTimes(n: nat, c: nat)
    ensures (n + 1) * c == c + n * c
  {
  }

  /** Crediting keeps every id and adds the ids credited. */
  lemma {:induction false} CreditKeys(m: map<nat, nat>, ids: seq<nat>, c: nat)
    ensures Credit(m, ids, c).Keys == m.Keys + set k | k in ids
    decreases |ids|
  {
    if ids != [] {
      CreditKeys(m[ids[0] := CountOf(m, ids[0]) + c], ids[1..], c);
      assert (set k | k in ids) == {ids[0]} + set k | k in ids[1..];
    }
  }

  /** What the cards add to the total of all counts, card by card: one
      copy of itself, and its copies once for every id it wins. */
  function Gain(cards: seq<Card>): nat
    decreases |cards|
  {
    if cards == [] then 0
    else
      var n := |cards| - 1;
      Gain(cards[..n]) + 1 + Own(cards, n) * Wins(cards[n])
  }

  /** The total of all counts is what the cards add up to. */
  lemma {:induction false} TallyTotal(cards: seq<Card>)
    ensures MapSum(Tally(cards)) == Gain(cards)
    decreases |cards|
  {
    if cards != [] {
      var n := |cards| - 1;
      var front := cards[..n];
      var m := Tally(front);
      var last := cards[n];
      var own := CountOf(m, last.id) + 1;
      var start := m[last.id := own];
      var w := Wins(last);
      var gain := own * w;
      assert Tally(cards) == Credit(start, WinSet(last), own);
      assert Gain(cards) == Gain(front) + 1 + gain;
      TallyTotal(front);
      MapSumUpdate(m, last.id, own);
      assert MapSum(start) == MapSum(m) + 1;
      CreditSum(start, WinSet(last), own);
      assert |WinSet(last)| * own == gain;
    }
  }

  /** Some card has id `k`, or wins it. */
  ghost predicate Reached(cards: seq<Card>, k: nat)
  {
    exists i :: 0 <= i < |cards| && cards[i].id <= k <= cards[i].id + Wins(cards[i])
  }

  lemma ReachedStep(cards: seq<Card>, k: nat)
    requires cards != []
    ensures Reached(cards, k) <==>
      Reached(cards[..|cards| - 1], k) || cards[|cards| - 1].id <= k <= cards[|cards| - 1].id + Wins(cards[|cards| - 1])
  {
    var n := |cards| - 1;
    if Reached(cards, k) {
      var i :| 0 <= i < |cards| && cards[i].id <= k <= cards[i].id + Wins(cards[i]);
      assert i < n ==> cards[..n][i] == cards[i];
    }
    if Reached(cards[..n], k) {
      var i :| 0 <= i < n && cards[..n][i].id <= k <= cards[..n][i].id + Wins(cards[..n][i]);
      assert cards[..n][i] == cards[i];
    }
  }

  /** The ids that hold a count are the cards' own ids and the ids they
      win, ids past the last card included. */
  lemma {:induction false} TallyHas(cards: seq<Card>, k: nat)
    ensures k in Tally(cards) <==> Reached(cards, k)
    decreases |cards|
  {
    if cards != [] {
      var n := |cards| - 1;
      var last := cards[n];
      var m := Tally(cards[..n]);
      TallyHas(cards[..n], k);
      ReachedStep(cards, k);
      CreditKeys(m[last.id := CountOf(m, last.id) + 1], WinSet(last), CountOf(m, last.id) + 1);
      WinSetMeaning(last);
    }
  }

  /** Every count is at least one. */
  lemma {:induction false} TallyPositive(cards: seq<Card>)
    ensures forall k :: k in Tally(cards) ==> Tally(cards)[k] >= 1
    decreases |cards|
  {
    if cards != [] {
      var n := |cards| - 1;
      var last := cards[n];
      var m := Tally(cards[..n]);
      TallyPositive(cards[..n]);
      CreditPositive(m[last.id := CountOf(m, last.id) + 1], WinSet(last), CountOf(m, last.id) + 1);
    }
  }

  lemma {:induction false} CreditPositive(m: map<nat, nat>, ids: seq<nat>, c: nat)
    requires c >= 1
    requires forall k :: k in m ==> m[k] >= 1
    ensures forall k :: k in Credit(m, ids, c) ==> Credit(m, ids, c)[k] >= 1
    decreases |ids|
  {
    if ids != [] {
      CreditPositive(m[ids[0] := CountOf(m, ids[0]) + c], ids[1..], c);
    }
  }

  /** One more card in the tally. */
  lemma TallyStep(cards: seq<Card>, i: nat)
    requires i < |cards|
    ensures var m := Tally(cards[..i]);
      Tally(cards[..i + 1]) == Credit(m[cards[i].id := CountOf(m, cards[i].id) + 1], WinSet(cards[i]), CountOf(m, cards[i].id) + 1)
  {
    assert cards[..i + 1][..i] == cards[..i];
  }

  /** `part02`: the copy tally over the cards of the lines that parse,
      then the sum of all counts. */
  method Part02(lines: seq<string>) returns (total: nat)
    ensures total == MapSum(Tally(Cards(lines)))
  {
    var cards := Cards(lines);
    var counts: map<nat, nat> := map[];
    for i := 0 to |cards|
      invariant counts == Tally(cards[..i])
    {
      TallyStep(cards, i);
      counts := AddCard(counts, cards[i]);
    }
    assert cards[..|cards|] == cards;
    total := SumCounts(counts);
  }

  /** The body of the loop over the cards: the card's own copy, then its
      count added to every id it wins. */
  method AddCard(counts: map<nat, nat>, card: Card) returns (result: map<nat, nat>)
    ensures result == Credit(counts[card.id := CountOf(counts, card.id) + 1], WinSet(card), CountOf(counts, card.id) + 1)
  {
    var cardCount: nat;
    if card.id in counts {
      cardCount := counts[card.id] + 1;
      result := counts[card.id := cardCount];
    } else {
      result := counts[card.id := 1];
      cardCount := 1;
    }
    result := AddCopies(result, WinSet(card), cardCount);
  }

  /** `for win_id in card.win_set()`: the card's count added to every id
      it wins. */
  method AddCopies(counts: map<nat, nat>, ids: seq<nat>, cardCount: nat) returns (result: map<nat, nat>)
    ensures result == Credit(counts, ids, cardCount)
  {
    result := counts;
    for j := 0 to |ids|
      invariant Credit(result, ids[j..], cardCount) == Credit(counts, ids, cardCount)
    {
      var winId := ids[j];
      if winId in result {
        result := result[winId := result[winId] + cardCount];
      } else {
        result := result[winId := cardCount];
      }
      assert ids[j..][1..] == ids[j + 1..];
    }
  }

  /** `map.values().sum()`: the counts added up, key by key. */
  method SumCounts(counts: map<nat, nat>) returns (total: nat)
    ensures total == MapSum(counts)
  {
    total := 0;
    var rest := counts;
    while rest.Keys != {}
      invariant total + MapSum(rest) == MapSum(counts)
      decreases |rest.Keys|
    {
      var k :| k in rest;
      MapSumRemove(rest, k);
      assert (rest - {k}).Keys < rest.Keys;
      total := total + rest[k];
      rest := rest - {k};
    }
  }
}
