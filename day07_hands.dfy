/** Day 7 (day07/src/main.rs): the hand grammar (`card`, `face`, `digit`,
    `hand_raw`, `hand_bid`, `parser01`, `parser02`) and the two parts, which
    rank the hands read from the lines and sum each bid times its rank. */
module Day07Hands {

  import opened Parsing
  import opened Day07Counts
  import opened Day07
  import opened Day07Order

  /** A card value the grammar can produce: 2 to 9, then T, J, Q, K, A as
      10 to 14. */
  predicate IsCard(v: nat) { 2 <= v <= 14 }

  /** `digit`: one of '2' to '9', as its value. */
  function Digit(s: string): (r: Parsed<nat>)
    ensures r.Success? <==> s != [] && '2' <= s[0] <= '9'
    ensures r.Success? ==> r.rest == s[1..] && r.value == DigitValue(s[0]) && IsCard(r.value)
  {
    if s != [] && IsDigit(s[0]) && s[0] != '0' && s[0] != '1' then Success(DigitValue(s[0]), s[1..])
    else Failure
  }

  /** `face`: T, J, Q, K or A, as 10 to 14. */
  function Face(s: string): (r: Parsed<nat>)
    ensures r.Success? <==> s != [] && s[0] in "TJQKA"
    ensures r.Success? ==> r.rest == s[1..] && 10 <= r.value <= 14
  {
    if s == [] then Failure
    else if s[0] == 'T' then Success(10, s[1..])
    else if s[0] == 'J' then Success(11, s[1..])
    else if s[0] == 'Q' then Success(12, s[1..])
    else if s[0] == 'K' then Success(13, s[1..])
    else if s[0] == 'A' then Success(14, s[1..])
    else Failure
  }

  /** `card`: a digit card, else a face card. */
  function Card(s: string): (r: Parsed<nat>)
    ensures r.Success? <==> s != [] && s[0] in "23456789TJQKA"
    ensures r.Success? ==> r.rest == s[1..] && IsCard(r.value)
  {
    var d := Digit(s);
    if d.Success? then d else Face(s)
  }

  /** How a card is written. */
  function CardChar(v: nat): (c: char)
    requires IsCard(v)
  {
    if v <= 9 then DigitChar(v)
    else if v == 10 then 'T'
    else if v == 11 then 'J'
    else if v == 12 then 'Q'
    else if v == 13 then 'K'
    else 'A'
  }

  /** Every card reads back as itself. */
  lemma CardRoundTrip(v: nat, rest: string)
    requires IsCard(v)
    ensures Card([CardChar(v)] + rest) == Success(v, rest)
  {
    assert ([CardChar(v)] + rest)[1..] == rest;
  }

  /** A card character is written for one value only. */
  lemma CardCharInjective(v: nat, w: nat)
    requires IsCard(v) && IsCard(w) && CardChar(v) == CardChar(w)
    ensures v == w
  {
    CardRoundTrip(v, "");
    CardRoundTrip(w, "");
  }

  /** `many0(card)`: as many cards as follow, and the text after them. */
  function Cards(s: string): (r: (seq<nat>, string))
    ensures IsSuffix(r.1, s) && |r.0| + |r.1| == |s|
    ensures forall i :: 0 <= i < |r.0| ==> IsCard(r.0[i])
    ensures Card(r.1).Failure?
    decreases |s|
  {
    var c := Card(s);
    if c.Failure? then ([], s)
    else
      var more := Cards(c.rest);
      ([c.value] + more.0, more.1)
  }

  /** `hand_raw`: the cards of a hand; `None` where it panics because there
      are not exactly five. */
  function HandRaw(s: string): (r: Option<(seq<nat>, string)>)
    ensures r.None? <==> |Cards(s).0| != 5
    ensures r.Some? ==> r.value == Cards(s)
  {
    var cards := Cards(s);
    if |cards.0| != 5 then None else Some(cards)
  }

  /** `hand_bid`: the cards, optional spaces, then the bid; `None` where
      `hand_raw` panics. */
  function HandBid(s: string): (r: Option<Parsed<(seq<nat>, nat)>>)
    ensures r.None? <==> HandRaw(s).None?
    ensures r.Some? && r.value.Success? ==> |r.value.value.0| == 5 && Consumes(r.value, s)
  {
    var raw := HandRaw(s);
    if raw.None? then None
    else
      var bid := Unsigned(Space0(raw.value.1));
      SuffixTransitive(Space0(raw.value.1), raw.value.1, s);
      if bid.Failure? then Some(Failure)
      else
        SuffixTransitive(bid.rest, Space0(raw.value.1), s);
        Some(Success((raw.value.0, bid.value), bid.rest))
  }

  /** `parser01`: `None` where it panics, `Some(None)` for a line that
      does not parse (it is skipped), else the hand (`Hand::new`). */
  function Parser01(s: string): Option<Option<Hand>>
  {
    var hb := HandBid(s);
    if hb.None? then None
    else if hb.value.Failure? then Some(None)
    else
      var hand := NewHand(hb.value.value.0, hb.value.value.1);
      if hand.None? then None else Some(Some(hand.value))
  }

  /** `parser02`: as `parser01`, the hand made by `Hand::new_wildcard` as
      written. */
  function Parser02(s: string): Option<Option<Hand>>
  {
    var hb := HandBid(s);
    if hb.None? then None
    else if hb.value.Failure? then Some(None)
    else
      var hand := WildcardAsWritten(hb.value.value.0, hb.value.value.1);
      if hand.None? then None else Some(Some(hand.value))
  }

  /** `parser02` with the wildcard class `Hand::new_wildcard` is meant to
      give (the jokers join the most frequent other card). */
  function Parser02Intended(s: string): Option<Option<Hand>>
  {
    var hb := HandBid(s);
    if hb.None? then None
    else if hb.value.Failure? then Some(None)
    else
      var hand := Wildcard(hb.value.value.0, hb.value.value.1);
      if hand.None? then None else Some(Some(hand.value))
  }

  // ---------------------------------------------------------------------
  // Facts about the grammar.

  /** The text of a list of cards. */
  function CardsText(cards: seq<nat>): (s: string)
    requires forall i :: 0 <= i < |cards| ==> IsCard(cards[i])
    ensures |s| == |cards|
    decreases |cards|
  {
    if cards == [] then [] else [CardChar(cards[0])] + CardsText(cards[1..])
  }

  /** Written cards read back, up to the first character that is not one. */
  lemma {:induction false} CardsRoundTrip(cards: seq<nat>, rest: string)
    requires forall i :: 0 <= i < |cards| ==> IsCard(cards[i])
    requires Card(rest).Failure?
    ensures Cards(CardsText(cards) + rest) == (cards, rest)
    decreases |cards|
  {
    if cards != [] {
      var s := CardsText(cards) + rest;
      var tail := CardsText(cards[1..]) + rest;
      assert s == [CardChar(cards[0])] + tail;
      CardRoundTrip(cards[0], tail);
      CardsStep(s);
      CardsRoundTrip(cards[1..], rest);
      assert cards == [cards[0]] + cards[1..];
    }
  }

  /** One card read, then the rest of the cards. */
  lemma CardsStep(s: string)
    requires Card(s).Success?
    ensures Cards(s) == ([Card(s).value] + Cards(Card(s).rest).0, Cards(Card(s).rest).1)
  {
  }

  /** A line of the input: five cards, a space, the bid, then `tail`. */
  function HandText(cards: seq<nat>, bid: nat, tail: string): string
    requires forall i :: 0 <= i < |cards| ==> IsCard(cards[i])
  {
    CardsText(cards) + (" " + (Decimal(bid) + tail))
  }

  /** A written line reads back as its cards and bid. */
  lemma HandBidRoundTrip(cards: seq<nat>, bid: nat, tail: string)
    requires |cards| == 5 && forall i :: 0 <= i < 5 ==> IsCard(cards[i])
    requires tail == [] || !IsDigit(tail[0])
    ensures HandBid(HandText(cards, bid, tail)) == Some(Success((cards, bid), tail))
  {
    var afterCards := " " + (Decimal(bid) + tail);
    CardsRoundTrip(cards, afterCards);
    SpacesThen(" ", Decimal(bid) + tail);
    UnsignedRoundTrip(bid, tail);
  }

  /** Every line that is read gives a hand of five cards; `parser01` panics
      exactly where `hand_raw` does, since five cards always classify. */
  lemma Parser01Meaning(s: string)
    ensures Parser01(s).None? <==> HandRaw(s).None?
    ensures Parser01(s).Some? && Parser01(s).value.Some? ==>
              var h := Parser01(s).value.value;
              |h.cards| == 5 && Joker !in h.cards &&
              h.category == KindClass(Kinds(h.cards), Most(h.cards))
  {
    var hb := HandBid(s);
    if hb.Some? && hb.value.Success? {
      var cards := hb.value.value.0;
      assert forall i :: 0 <= i < |cards| ==> IsCard(cards[i]);
      assert Joker !in cards;
      NewHandMeaning(cards, hb.value.value.1);
    }
  }

  /** A written line gives the hand with its usual class. */
  lemma Parser01RoundTrip(cards: seq<nat>, bid: nat, tail: string)
    requires |cards| == 5 && forall i :: 0 <= i < 5 ==> IsCard(cards[i])
    requires tail == [] || !IsDigit(tail[0])
    ensures Parser01(HandText(cards, bid, tail)) == Some(Some(Hand(cards, KindClass(Kinds(cards), Most(cards)), bid)))
  {
    HandBidRoundTrip(cards, bid, tail);
    assert Joker !in cards;
    NewHandMeaning(cards, bid);
  }

  /** `parser02` panics exactly where `hand_raw` does, since
      `classify_hand` never panics on five cards; every hand it reads keeps
      its cards as dealt and takes the class `classify_hand` gives its
      jokered cards, which is the usual class when it holds no jack. */
  lemma Parser02Meaning(s: string)
    ensures Parser02(s).None? <==> HandRaw(s).None?
    ensures Parser02(s).Some? && Parser02(s).value.Some? ==>
              var h := Parser02(s).value.value;
              |h.cards| == 5 && ClassifyHand(Jokered(h.cards)) == Some(h.category) &&
              (Jack !in h.cards ==> h.category == KindClass(Kinds(h.cards), Most(h.cards)))
  {
    var hb := HandBid(s);
    if hb.Some? && hb.value.Success? {
      var cards := hb.value.value.0;
      ClassifyTotal(Jokered(cards));
      if Jack !in cards {
        NoJackUnchanged(cards);
        NewHandMeaning(cards, hb.value.value.1);
      }
    }
  }

  /** Cards of the grammar without a jack are not changed by making the
      jacks jokers, and hold no joker. */
  lemma NoJackUnchanged(cards: seq<nat>)
    requires forall i :: 0 <= i < |cards| ==> IsCard(cards[i])
    requires Jack !in cards
    ensures Jokered(cards) == cards && Joker !in cards
  {
    assert forall i :: 0 <= i < |cards| ==> cards[i] != Jack;
  }

  /** A written line gives the hand with its cards as dealt and the class
      `classify_hand` gives its jokered cards; without a jack, the hand is
      the one `parser01` reads. */
  lemma Parser02RoundTrip(cards: seq<nat>, bid: nat, tail: string)
    requires |cards| == 5 && forall i :: 0 <= i < 5 ==> IsCard(cards[i])
    requires tail == [] || !IsDigit(tail[0])
    ensures ClassifyHand(Jokered(cards)).Some?
    ensures Parser02(HandText(cards, bid, tail)) == Some(Some(Hand(cards, ClassifyHand(Jokered(cards)).value, bid)))
    ensures Jack !in cards ==> Parser02(HandText(cards, bid, tail)) == Parser01(HandText(cards, bid, tail))
  {
    HandBidRoundTrip(cards, bid, tail);
    ClassifyTotal(Jokered(cards));
    if Jack !in cards {
      NoJackUnchanged(cards);
      NewHandMeaning(cards, bid);
    }
  }

  /** The intended `parser02` panics exactly where `hand_raw` does, and
      every hand it reads keeps its cards and gets the best class its jacks
      can make. */
  lemma Parser02IntendedMeaning(s: string)
    ensures Parser02Intended(s).None? <==> HandRaw(s).None?
    ensures Parser02Intended(s).Some? && Parser02Intended(s).value.Some? ==>
              var h := Parser02Intended(s).value.value;
              |h.cards| == 5 && h.category == JokerClass(Jokered(h.cards)).value
  {
    var hb := HandBid(s);
    if hb.Some? && hb.value.Success? {
      JokerClassBest(Jokered(hb.value.value.0));
    }
  }

  /** Under the intended rule a written line gives the hand with its cards
      as dealt and the best class its jacks, as jokers, can make. */
  lemma Parser02IntendedRoundTrip(cards: seq<nat>, bid: nat, tail: string)
    requires |cards| == 5 && forall i :: 0 <= i < 5 ==> IsCard(cards[i])
    requires tail == [] || !IsDigit(tail[0])
    ensures JokerClass(Jokered(cards)).Some?
    ensures Parser02Intended(HandText(cards, bid, tail)) == Some(Some(Hand(cards, JokerClass(Jokered(cards)).value, bid)))
    ensures forall d :: d != Joker ==>
              Strength(AsCard(Jokered(cards), d)) <= Strength(JokerClass(Jokered(cards)).value)
  {
    HandBidRoundTrip(cards, bid, tail);
    JokerClassBest(Jokered(cards));
  }

  /** A line without five cards before the bid panics (an empty line, or
      four cards). */
  lemma ShortHandPanics(cards: seq<nat>, bid: nat)
    requires |cards| < 5 && forall i :: 0 <= i < |cards| ==> IsCard(cards[i])
    ensures Parser01(HandText(cards, bid, "")) == None
    ensures Parser02(HandText(cards, bid, "")) == None
    ensures Parser02Intended(HandText(cards, bid, "")) == None
  {
    CardsRoundTrip(cards, " " + (Decimal(bid) + ""));
  }

  /** Five cards with no bid after them: the line is skipped. */
  lemma MissingBidSkipped(cards: seq<nat>)
    requires |cards| == 5 && forall i :: 0 <= i < 5 ==> IsCard(cards[i])
    ensures Parser01(CardsText(cards)) == Some(None)
    ensures Parser02(CardsText(cards)) == Some(None)
    ensures Parser02Intended(CardsText(cards)) == Some(None)
  {
    CardsRoundTrip(cards, "");
    assert CardsText(cards) + "" == CardsText(cards);
  }

  // ---------------------------------------------------------------------
  // The two parts.

  /** `filter_map(parser)` over the lines: the hands read, in order,
      skipping lines that do not parse; `None` if any line panics. */
  function ReadHands(lines: seq<string>, parser: string -> Option<Option<Hand>>): (r: Option<seq<Hand>>)
    ensures r.Some? <==> forall i :: 0 <= i < |lines| ==> parser(lines[i]).Some?
    ensures r.Some? ==> |r.value| <= |lines| &&
                        forall h :: h in r.value ==> exists i :: 0 <= i < |lines| && parser(lines[i]) == Some(Some(h))
    decreases |lines|
  {
    if lines == [] then Some([])
    else
      var front := ReadHands(lines[..|lines| - 1], parser);
      var line := parser(lines[|lines| - 1]);
      if front.None? || line.None? then None
      else if line.value.None? then front
      else Some(front.value + [line.value.value])
  }

  /** Every hand the parser gives has five cards. */
  ghost predicate GivesFive(parser: string -> Option<Option<Hand>>)
  {
    forall s :: parser(s).Some? && parser(s).value.Some? ==> |parser(s).value.value.cards| == 5
  }

  lemma ParsersGiveFive()
    ensures GivesFive(Parser01) && GivesFive(Parser02) && GivesFive(Parser02Intended)
  {
    forall s
      ensures Parser01(s).Some? && Parser01(s).value.Some? ==> |Parser01(s).value.value.cards| == 5
      ensures Parser02(s).Some? && Parser02(s).value.Some? ==> |Parser02(s).value.value.cards| == 5
      ensures Parser02Intended(s).Some? && Parser02Intended(s).value.Some? ==>
                |Parser02Intended(s).value.value.cards| == 5
    {
      Parser01Meaning(s);
      Parser02Meaning(s);
      Parser02IntendedMeaning(s);
    }
  }

  /** The hands read by such a parser have five cards each. */
  lemma {:induction false} ReadFiveCards(lines: seq<string>, parser: string -> Option<Option<Hand>>)
    requires GivesFive(parser)
    ensures ReadHands(lines, parser).Some? ==> FiveCards(ReadHands(lines, parser).value)
    decreases |lines|
  {
    if lines != [] {
      var front := lines[..|lines| - 1];
      ReadFiveCards(front, parser);
      var r := ReadHands(lines, parser);
      if r.Some? {
        var line := parser(lines[|lines| - 1]);
        if line.value.Some? {
          assert r.value == ReadHands(front, parser).value + [line.value.value];
        }
      }
    }
  }

  /** The hands a parser reads, ranked weakest first, each bid multiplied
      by its rank. */
  function Total(lines: seq<string>, parser: string -> Option<Option<Hand>>): (r: Option<nat>)
    requires GivesFive(parser)
    ensures r.Some? <==> ReadHands(lines, parser).Some?
  {
    var hands := ReadHands(lines, parser);
    if hands.None? then None
    else
      ReadFiveCards(lines, parser);
      Some(Winnings(SortHands(hands.value)))
  }

  /** `part01`: the hands with their usual classes; `None` if a line
      panics. */
  function Part01(lines: seq<string>): Option<nat>
  {
    ParsersGiveFive();
    Total(lines, Parser01)
  }

  /** `part02`: the hands with jacks as wildcards, classified as written. */
  function Part02(lines: seq<string>): Option<nat>
  {
    ParsersGiveFive();
    Total(lines, Parser02)
  }

  /** `part02` with the intended wildcard class. */
  function Part02Intended(lines: seq<string>): Option<nat>
  {
    ParsersGiveFive();
    Total(lines, Parser02Intended)
  }

  // ---------------------------------------------------------------------
  // The answer does not depend on how the hands are sorted.

  /** No two different hands compare `Equal`. */
  predicate NoTies(hands: seq<Hand>)
  {
    forall x, y :: x in hands && y in hands && Compare(x, y) == Equal ==> x == y
  }

  /** The first hand of a ranking does not beat any hand in it. */
  lemma RankedFirst(a: seq<Hand>, x: Hand)
    requires Ranked(a) && FiveCards(a) && x in a
    ensures Compare(a[0], x) != Greater
  {
    var i :| 0 <= i < |a| && a[i] == x;
    if i == 0 {
      assert a[0] in a;
      CompareEqual(x, x);
    }
  }

  /** Two rankings of the same hands with no ties start with the same hand. */
  lemma SameFirst(a: seq<Hand>, b: seq<Hand>)
    requires a != [] && Ranked(a) && Ranked(b) && multiset(a) == multiset(b)
    requires FiveCards(a) && NoTies(a)
    ensures b != [] && a[0] == b[0]
  {
    var x := a[0];
    assert x in multiset(b);
    var y := b[0];
    assert y in multiset(a);
    assert forall h :: h in b ==> h in multiset(a);
    RankedFirst(a, y);
    RankedFirst(b, x);
    CompareFlip(x, y);
  }

  /** The same hands, in another order, have five cards and no ties. */
  lemma SameHands(a: seq<Hand>, b: seq<Hand>)
    requires multiset(a) == multiset(b) && FiveCards(a) && NoTies(a)
    ensures FiveCards(b) && NoTies(b)
  {
    assert forall h :: h in b ==> h in multiset(a);
  }

  /** What is left of a ranking without ties once its first hand is taken. */
  lemma RankedTail(a: seq<Hand>)
    requires a != [] && Ranked(a) && FiveCards(a) && NoTies(a)
    ensures Ranked(a[1..]) && FiveCards(a[1..]) && NoTies(a[1..])
  {
    assert forall h :: h in a[1..] ==> h in a;
  }

  /** Two rankings of the same hands with no ties are the same list. */
  lemma {:induction false} RankedUnique(a: seq<Hand>, b: seq<Hand>)
    requires Ranked(a) && Ranked(b) && multiset(a) == multiset(b)
    requires FiveCards(a) && NoTies(a)
    ensures a == b
    decreases |a|
  {
    if a != [] {
      SameFirst(a, b);
      SameHands(a, b);
      assert a == [a[0]] + a[1..] && b == [b[0]] + b[1..];
      assert multiset(a) == multiset{a[0]} + multiset(a[1..]);
      assert multiset(b) == multiset{b[0]} + multiset(b[1..]);
      forall h
        ensures multiset(a[1..])[h] == multiset(b[1..])[h]
      {
        assert multiset(a)[h] == multiset{a[0]}[h] + multiset(a[1..])[h];
        assert multiset(b)[h] == multiset{b[0]}[h] + multiset(b[1..])[h];
      }
      RankedTail(a);
      RankedTail(b);
      RankedUnique(a[1..], b[1..]);
    }
  }

  /** When the hands a parser reads have no ties, the part is the ranking
      sum of any weakest-first ordering of them. */
  lemma TotalOfAnyRanking(lines: seq<string>, parser: string -> Option<Option<Hand>>, ranked: seq<Hand>)
    requires GivesFive(parser)
    requires var hands := ReadHands(lines, parser);
             hands.Some? && NoTies(hands.value) && multiset(ranked) == multiset(hands.value)
    requires Ranked(ranked)
    ensures Total(lines, parser) == Some(Winnings(ranked))
  {
    var hands := ReadHands(lines, parser).value;
    ReadFiveCards(lines, parser);
    var sorted := SortHands(hands);
    assert forall y :: y in sorted ==> y in hands;
    RankedUnique(sorted, ranked);
  }

  // ---------------------------------------------------------------------
  // Part 2 as written and as intended, on two lines.

  /** A hand of four `a` and one `b`, neither a joker, is four of a kind. */
  lemma FourOfAKindHand(cards: seq<nat>, a: nat, b: nat)
    requires cards == [a, a, a, a, b] && a != b && b != Joker
    ensures ClassifyHand(cards) == Some(FourOfAKind)
  {
    FourAndOneCounts(cards, a, b);
  }

  /** Under the intended rule, jokers that make five of a kind as some
      other card make five of a kind. */
  lemma FiveAsSomeCard(cards: seq<nat>, d: nat)
    requires |cards| == 5 && d != Joker
    requires ClassifyHand(Replace(cards, Joker, d)) == Some(FiveOfAKind)
    ensures JokerClass(cards) == Some(FiveOfAKind)
  {
    JokerClassBest(cards);
    var other := Replace(cards, Joker, d);
    assert Joker !in other;
    ClassifyPlain(other);
    assert AsCard(cards, d) == FiveOfAKind;
  }

  /** Under the intended rule the jokered `JJJJ2` is five of a kind. */
  lemma FourJacksIntended(jokered: seq<nat>)
    requires jokered == [0, 0, 0, 0, 2]
    ensures JokerClass(jokered) == Some(FiveOfAKind)
  {
    JokersAsTwos(jokered);
    FiveAsSomeCard(jokered, 2);
  }

  /** Two lines, each giving a hand. */
  lemma TwoLines(lines: seq<string>, parser: string -> Option<Option<Hand>>, x: Hand, y: Hand)
    requires |lines| == 2 && parser(lines[0]) == Some(Some(x)) && parser(lines[1]) == Some(Some(y))
    ensures ReadHands(lines, parser) == Some([x, y])
  {
    var first := lines[..1];
    assert first[..0] == [] && first[0] == lines[0];
    assert ReadHands(first, parser) == Some([] + [x]);
    assert [] + [x] + [y] == [x, y];
  }

  /** The ranking sum of two hands. */
  lemma TwoWinnings(x: Hand, y: Hand)
    ensures Winnings([x, y]) == x.bid + 2 * y.bid
  {
    assert [x, y][..1] == [x];
    assert [x][..0] == [];
    assert Winnings([x]) == x.bid;
  }

  /** Two hands of different cards, the first not beating the second, are
      ranked and have no tie. */
  lemma TwoRanked(x: Hand, y: Hand)
    requires |x.cards| == |y.cards| && x.cards != y.cards && Compare(x, y) != Greater
    ensures Ranked([x, y]) && NoTies([x, y])
  {
    CompareEqual(x, y);
    CompareEqual(y, x);
    CompareEqual(x, x);
    CompareEqual(y, y);
  }

  /** The two lines of the example, as `HandText` writes them. */
  lemma ExampleLines()
    ensures "JJJJ2 1" == HandText([11, 11, 11, 11, 2], 1, "")
    ensures "AAAAK 5" == HandText([14, 14, 14, 14, 13], 5, "")
  {
  }

  /** `part02` as written on the lines `JJJJ2 1` and `AAAAK 5`: both
      hands are four of a kind and `JJJJ2`, its jack below the ace, ranks
      first, giving 1 * 1 + 5 * 2 = 11. */
  lemma FourJacksAsWritten()
    ensures Part02(["JJJJ2 1", "AAAAK 5"]) == Some(11)
  {
    ExampleLines();
    var jacks, aces := [11, 11, 11, 11, 2], [14, 14, 14, 14, 13];
    AsWrittenTotal(jacks, aces, [HandText(jacks, 1, ""), HandText(aces, 5, "")]);
  }

  /** The intended `part02` on the same lines: `JJJJ2` is five of a kind
      and ranks second, giving 5 * 1 + 1 * 2 = 7. */
  lemma FourJacksAsIntended()
    ensures Part02Intended(["JJJJ2 1", "AAAAK 5"]) == Some(7)
  {
    ExampleLines();
    var jacks, aces := [11, 11, 11, 11, 2], [14, 14, 14, 14, 13];
    AsIntendedTotal(jacks, aces, [HandText(jacks, 1, ""), HandText(aces, 5, "")]);
  }

  /** The line `JJJJ2 1`: four of a kind as written, five of a kind as
      intended. */
  lemma JacksLine(jacks: seq<nat>, line: string)
    requires jacks == [11, 11, 11, 11, 2] && line == HandText(jacks, 1, "")
    ensures Parser02(line) == Some(Some(Hand(jacks, FourOfAKind, 1)))
    ensures Parser02Intended(line) == Some(Some(Hand(jacks, FiveOfAKind, 1)))
  {
    Parser02RoundTrip(jacks, 1, "");
    WildcardMisclassifies(jacks, 1);
    Parser02IntendedRoundTrip(jacks, 1, "");
    JacksJokered(jacks);
    FourJacksIntended(Jokered(jacks));
  }

  lemma JacksJokered(jacks: seq<nat>)
    requires jacks == [11, 11, 11, 11, 2]
    ensures Jokered(jacks) == [0, 0, 0, 0, 2]
  {
  }

  /** A hand of a weaker class compares `Less`. */
  lemma WeakerClass(x: Hand, y: Hand)
    requires Strength(x.category) < Strength(y.category)
    ensures Compare(x, y) == Less
  {
  }

  /** The line `AAAAK 5`: four of a kind under either rule. */
  lemma AcesLine(aces: seq<nat>, line: string)
    requires aces == [14, 14, 14, 14, 13] && line == HandText(aces, 5, "")
    ensures Parser02(line) == Some(Some(Hand(aces, FourOfAKind, 5)))
    ensures Parser02Intended(line) == Some(Some(Hand(aces, FourOfAKind, 5)))
  {
    NoJackUnchanged(aces);
    FourOfAKindHand(aces, 14, 13);
    Parser02RoundTrip(aces, 5, "");
    Parser02IntendedRoundTrip(aces, 5, "");
    NoJokerClass(aces);
  }

  /** Two hands, the first weaker, of different cards: ranked in this
      order without ties, the ranking sum the first bid plus twice the
      second. */
  lemma TwoHandRanking(first: Hand, second: Hand)
    requires |first.cards| == |second.cards| && first.cards != second.cards
    requires Compare(first, second) == Less
    ensures Ranked([first, second]) && NoTies([first, second]) && NoTies([second, first])
    ensures multiset([second, first]) == multiset([first, second])
    ensures Winnings([first, second]) == first.bid + 2 * second.bid
  {
    TwoRanked(first, second);
    TwoWinnings(first, second);
    assert forall h :: h in [second, first] <==> h in [first, second];
  }

  lemma AsWrittenTotal(jacks: seq<nat>, aces: seq<nat>, lines: seq<string>)
    requires jacks == [11, 11, 11, 11, 2] && aces == [14, 14, 14, 14, 13]
    requires lines == [HandText(jacks, 1, ""), HandText(aces, 5, "")]
    ensures Part02(lines) == Some(11)
  {
    var weak := Hand(jacks, FourOfAKind, 1);
    var strong := Hand(aces, FourOfAKind, 5);
    assert Compare(weak, strong) == Less;
    TwoHandRanking(weak, strong);
    ParsersGiveFive();
    JacksLine(jacks, lines[0]);
    AcesLine(aces, lines[1]);
    TwoLines(lines, Parser02, weak, strong);
    TotalOfAnyRanking(lines, Parser02, [weak, strong]);
  }

  lemma AsIntendedTotal(jacks: seq<nat>, aces: seq<nat>, lines: seq<string>)
    requires jacks == [11, 11, 11, 11, 2] && aces == [14, 14, 14, 14, 13]
    requires lines == [HandText(jacks, 1, ""), HandText(aces, 5, "")]
    ensures Part02Intended(lines) == Some(7)
  {
    var five := Hand(jacks, FiveOfAKind, 1);
    var strong := Hand(aces, FourOfAKind, 5);
    assert aces[0] != jacks[0];
    WeakerClass(strong, five);
    TwoHandRanking(strong, five);
    ParsersGiveFive();
    JacksLine(jacks, lines[0]);
    AcesLine(aces, lines[1]);
    TwoLines(lines, Parser02Intended, five, strong);
    TotalOfAnyRanking(lines, Parser02Intended, [strong, five]);
  }
}
