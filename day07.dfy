/** Day 7 (day07/src/main.rs): `Hand::classify_hand`, `Hand::new` and
    `Hand::new_wildcard`. A hand is five card values, 2 to 14; with
    wildcards every jack (11) is classified as a joker (0). */
module Day07 {

  import opened Parsing
  import opened Day07Counts

  /** `Class`, weakest first. */
  datatype Class = HighCard | OnePair | TwoPair | ThreeOfAKind | FullHouse | FourOfAKind | FiveOfAKind

  /** The derived order of `Class`: its declaration order. */
  function Strength(c: Class): (n: nat)
    ensures n <= 6
  {
    match c
    case HighCard => 0
    case OnePair => 1
    case TwoPair => 2
    case ThreeOfAKind => 3
    case FullHouse => 4
    case FourOfAKind => 5
    case FiveOfAKind => 6
  }

  /** `Hand`: the cards as dealt, the class, the bid. */
  datatype Hand = Hand(cards: seq<nat>, category: Class, bid: nat)

  /** The joker. */
  const Joker: nat := 0

  /** The jack, which the wildcard rules treat as a joker. */
  const Jack: nat := 11

  // ---------------------------------------------------------------------
  // `classify_hand`.

  /** The match of `classify_hand` on the sorted counts; `None` where it
      panics. */
  function ClassifyCounts(counts: seq<CountCard>): Option<Class>
  {
    if |counts| == 1 then Some(FiveOfAKind)
    else if |counts| == 2 then
      if counts[0].count == 1 && counts[1].count == 4 then
        Some(if counts[0].card == Joker then FiveOfAKind else FourOfAKind)
      else if counts[0].count == 2 && counts[1].count == 3 then
        Some(if counts[0].card == Joker then FiveOfAKind else FullHouse)
      else None
    else if |counts| == 3 then
      if counts[0].count == 1 && counts[1].count == 1 && counts[2].count == 3 then
        Some(if counts[0].card == Joker || counts[1].card == Joker then FourOfAKind else ThreeOfAKind)
      else if counts[0].count == 1 && counts[1].count == 2 && counts[2].count == 2 then
        if counts[0].card == Joker then Some(FullHouse)
        else if counts[1].card == Joker then
          if counts[1].count == 1 then Some(FullHouse)
          else if counts[1].count == 2 then Some(FourOfAKind)
          else None
        else Some(TwoPair)
      else None
    else if |counts| == 4 then
      Some(if counts[0].card == Joker || counts[1].card == Joker || counts[2].card == Joker then ThreeOfAKind
           else OnePair)
    else if |counts| == 5 then
      Some(if counts[0].card == Joker || counts[1].card == Joker || counts[2].card == Joker || counts[3].count == 0
           then OnePair else HighCard)
    else None
  }

  /** `classify_hand`: the match on `card_counts`. */
  function ClassifyHand(cards: seq<nat>): Option<Class>
  {
    ClassifyCounts(CardCounts(cards))
  }

  /** The class of a five-card hand by the usual rules: from the number of
      different cards and the largest number of equal cards. */
  function KindClass(kinds: nat, most: nat): Class
  {
    if most >= 5 then FiveOfAKind
    else if most == 4 then FourOfAKind
    else if most == 3 then (if kinds == 2 then FullHouse else ThreeOfAKind)
    else if most == 2 then (if kinds == 3 then TwoPair else OnePair)
    else HighCard
  }

  /** The sum of a sorted list of counts, written out for short lists. */
  lemma TotalOfFew(counts: seq<CountCard>)
    requires |counts| <= 5
    ensures |counts| == 1 ==> Total(counts) == counts[0].count
    ensures |counts| == 2 ==> Total(counts) == counts[0].count + counts[1].count
    ensures |counts| == 3 ==> Total(counts) == counts[0].count + counts[1].count + counts[2].count
    ensures |counts| == 4 ==> Total(counts) == counts[0].count + counts[1].count + counts[2].count + counts[3].count
    ensures |counts| == 5 ==> Total(counts) == counts[0].count + counts[1].count + counts[2].count + counts[3].count + counts[4].count
  {
    if counts != [] {
      var t := counts[1..];
      if t != [] {
        var u := t[1..];
        if u != [] {
          var v := u[1..];
          if v != [] {
            var w := v[1..];
            if w != [] {
              assert w[1..] == [];
            }
          }
        }
      }
    }
  }

  /** Positive counts add up to at least their number. */
  lemma {:induction false} TotalAtLeast(counts: seq<CountCard>)
    requires forall i :: 0 <= i < |counts| ==> counts[i].count >= 1
    ensures Total(counts) >= |counts|
    decreases |counts|
  {
    if counts != [] {
      TotalAtLeast(counts[1..]);
    }
  }

  /** The count patterns of a five-card hand: the partitions of five. */
  predicate FivePattern(counts: seq<CountCard>)
  {
    (|counts| == 1 && counts[0].count == 5) ||
    (|counts| == 2 && counts[0].count == 1 && counts[1].count == 4) ||
    (|counts| == 2 && counts[0].count == 2 && counts[1].count == 3) ||
    (|counts| == 3 && counts[0].count == 1 && counts[1].count == 1 && counts[2].count == 3) ||
    (|counts| == 3 && counts[0].count == 1 && counts[1].count == 2 && counts[2].count == 2) ||
    (|counts| == 4 && counts[0].count == 1 && counts[1].count == 1 && counts[2].count == 1 && counts[3].count == 2) ||
    (|counts| == 5 && forall i :: 0 <= i < 5 ==> counts[i].count == 1)
  }

  /** The counts of a five-card hand follow one of the partitions of five. */
  lemma Patterns(cards: seq<nat>)
    requires |cards| == 5
    ensures FivePattern(CardCounts(cards))
  {
    var counts := CardCounts(cards);
    CardCountsMeaning(cards);
    CountsTotal(cards, counts);
    CountsShape(cards, counts);
    PartitionsOfFive(counts);
  }

  /** Positive counts in ascending order that add up to five form one of
      the partitions of five. */
  lemma PartitionsOfFive(counts: seq<CountCard>)
    requires forall i :: 0 <= i < |counts| ==> counts[i].count >= 1
    requires forall i, j :: 0 <= i < j < |counts| ==> counts[i].count <= counts[j].count
    requires Total(counts) == 5
    ensures FivePattern(counts)
  {
    TotalAtLeast(counts);
    TotalOfFew(counts);
    if |counts| == 4 {
      assert counts[0].count <= counts[1].count <= counts[2].count <= counts[3].count;
    }
    if |counts| == 5 {
      assert counts[0].count <= counts[1].count <= counts[2].count <= counts[3].count <= counts[4].count;
    }
  }

  /** `classify_hand` never reaches one of its panics on five cards. */
  lemma ClassifyTotal(cards: seq<nat>)
    requires |cards| == 5
    ensures ClassifyHand(cards).Some?
  {
    Patterns(cards);
  }

  /** Without jokers `classify_hand` gives the usual class. */
  lemma ClassifyPlain(cards: seq<nat>)
    requires |cards| == 5 && Joker !in cards
    ensures ClassifyHand(cards) == Some(KindClass(Kinds(cards), Most(cards)))
  {
    var counts := CardCounts(cards);
    Patterns(cards);
    CardCountsMeaning(cards);
    CountsKinds(cards, counts);
    CountsMost(cards, counts);
    assert forall i :: 0 <= i < |counts| ==> counts[i].card != Joker;
    ClassifyCountsPlain(counts);
  }

  /** Without a joker among the counts, the match of `classify_hand` gives
      the class of as many kinds as counts and of the largest count. */
  lemma ClassifyCountsPlain(counts: seq<CountCard>)
    requires FivePattern(counts)
    requires forall i :: 0 <= i < |counts| ==> counts[i].card != Joker
    ensures ClassifyCounts(counts) == Some(KindClass(|counts|, counts[|counts| - 1].count))
  {
  }

  /** The number of different cards and the largest multiplicity of a
      five-card hand come in these pairs only. */
  lemma ShapePairs(cards: seq<nat>)
    requires |cards| == 5
    ensures var k, m := Kinds(cards), Most(cards);
      (k == 1 && m == 5) || (k == 2 && (m == 4 || m == 3)) || (k == 3 && (m == 3 || m == 2)) ||
      (k == 4 && m == 2) || (k == 5 && m == 1)
  {
    var counts := CardCounts(cards);
    Patterns(cards);
    CardCountsMeaning(cards);
    CountsKinds(cards, counts);
    CountsMost(cards, counts);
  }

  /** Among the possible pairs, fewer different cards and more equal cards
      never make a weaker class. */
  lemma KindClassMonotone(k: nat, m: nat, k': nat, m': nat)
    requires (k == 1 && m == 5) || (k == 2 && (m == 4 || m == 3)) || (k == 3 && (m == 3 || m == 2)) ||
             (k == 4 && m == 2) || (k == 5 && m == 1)
    requires (k' == 1 && m' == 5) || (k' == 2 && (m' == 4 || m' == 3)) || (k' == 3 && (m' == 3 || m' == 2)) ||
             (k' == 4 && m' == 2) || (k' == 5 && m' == 1)
    requires k' <= k && m <= m'
    ensures Strength(KindClass(k, m)) <= Strength(KindClass(k', m'))
  {
  }

  // ---------------------------------------------------------------------
  // `Hand::new` and `Hand::new_wildcard`.

  /** `Hand::new`; `None` where `classify_hand` panics. */
  function NewHand(cards: seq<nat>, bid: nat): Option<Hand>
  {
    var category := ClassifyHand(cards);
    if category.None? then None else Some(Hand(cards, category.value, bid))
  }

  /** A five-card hand without jokers gets its usual class. */
  lemma NewHandMeaning(cards: seq<nat>, bid: nat)
    requires |cards| == 5 && Joker !in cards
    ensures NewHand(cards, bid) == Some(Hand(cards, KindClass(Kinds(cards), Most(cards)), bid))
  {
    ClassifyPlain(cards);
  }

  /** Every jack made a joker. */
  function Jokered(cards: seq<nat>): (r: seq<nat>)
    ensures |r| == |cards|
    ensures forall i :: 0 <= i < |r| ==> r[i] == if cards[i] == Jack then Joker else cards[i]
  {
    seq(|cards|, i requires 0 <= i < |cards| => if cards[i] == Jack then Joker else cards[i])
  }

  /** `Hand::new_wildcard` as written: the class of the jokered cards
      (`classify_hand` read with jokers), the cards as dealt. */
  function WildcardAsWritten(cards: seq<nat>, bid: nat): Option<Hand>
  {
    var category := ClassifyHand(Jokered(cards));
    if category.None? then None else Some(Hand(cards, category.value, bid))
  }

  /** `Hand::new_wildcard`: the jacks of a copy of the cards are made
      jokers in place, and the copy is classified. */
  method NewWildcard(cards: seq<nat>, bid: nat) returns (hand: Option<Hand>)
    ensures hand == WildcardAsWritten(cards, bid)
  {
    var updated := new nat[|cards|](i requires 0 <= i < |cards| => cards[i]);
    for i := 0 to updated.Length
      invariant forall j :: 0 <= j < i ==> updated[j] == Jokered(cards)[j]
      invariant forall j :: i <= j < updated.Length ==> updated[j] == cards[j]
    {
      if updated[i] == Jack {
        updated[i] := Joker;
      }
    }
    assert updated[..] == Jokered(cards);
    var counts := CountCards(updated[..]);
    var category := ClassifyCounts(counts);
    hand := if category.None? then None else Some(Hand(cards, category.value, bid));
  }

  /** Every card `j` replaced by `d`. */
  function Replace(cards: seq<nat>, j: nat, d: nat): (r: seq<nat>)
    ensures |r| == |cards|
    ensures forall i :: 0 <= i < |r| ==> r[i] == if cards[i] == j then d else cards[i]
    decreases |cards|
  {
    if cards == [] then []
    else
      var front := cards[..|cards| - 1];
      var last := cards[|cards| - 1];
      Replace(front, j, d) + [if last == j then d else last]
  }

  /** How often `c` occurs among five cards, card by card. */
  lemma OccOfFive(cards: seq<nat>, c: nat)
    requires |cards| == 5
    ensures Occ(cards, c) ==
      (if cards[0] == c then 1 else 0) + (if cards[1] == c then 1 else 0) + (if cards[2] == c then 1 else 0) +
      (if cards[3] == c then 1 else 0) + (if cards[4] == c then 1 else 0)
  {
    var p4 := cards[..4];
    var p3 := p4[..3];
    var p2 := p3[..2];
    var p1 := p2[..1];
    assert p1[..0] == [];
    assert Occ(p1, c) == if cards[0] == c then 1 else 0;
    assert Occ(p2, c) == Occ(p1, c) + if cards[1] == c then 1 else 0;
    assert Occ(p3, c) == Occ(p2, c) + if cards[2] == c then 1 else 0;
    assert Occ(p4, c) == Occ(p3, c) + if cards[3] == c then 1 else 0;
  }

  /** The counts of four cards `a` and one card `b`. */
  lemma FourAndOneCounts(cards: seq<nat>, a: nat, b: nat)
    requires cards == [a, a, a, a, b] && a != b
    ensures CardCounts(cards) == [CountCard(1, b), CountCard(4, a)]
  {
    var counts := [CountCard(1, b), CountCard(4, a)];
    OccOfFive(cards, a);
    OccOfFive(cards, b);
    forall c | c in cards
      ensures exists i :: 0 <= i < |counts| && counts[i].card == c
    {
      if c == b {
        assert counts[0].card == c;
      } else {
        assert counts[1].card == c;
      }
    }
    CountsOfUnique(cards, counts);
  }

  /** The counts of the jokered `JJJJ2`. */
  lemma JokeredCounts(cards: seq<nat>)
    requires cards == [0, 0, 0, 0, 2]
    ensures CardCounts(cards) == [CountCard(1, 2), CountCard(4, 0)]
  {
    FourAndOneCounts(cards, 0, 2);
  }

  /** The counts of five twos. */
  lemma TwosCounts(cards: seq<nat>)
    requires cards == [2, 2, 2, 2, 2]
    ensures CardCounts(cards) == [CountCard(5, 2)]
  {
    var counts := [CountCard(5, 2)];
    OccOfFive(cards, 2);
    forall c | c in cards
      ensures exists i :: 0 <= i < |counts| && counts[i].card == c
    {
      assert counts[0].card == c;
    }
    CountsOfUnique(cards, counts);
  }

  /** The jokers of `JJJJ2` are all in the counts' last entry, where
      `classify_hand` does not look: the hand is four of a kind, where
      making the jokers twos gives five of a kind. */
  lemma WildcardMisclassifies(cards: seq<nat>, bid: nat)
    requires cards == [11, 11, 11, 11, 2]
    ensures WildcardAsWritten(cards, bid) == Some(Hand(cards, FourOfAKind, bid))
    ensures ClassifyHand(Replace(Jokered(cards), Joker, 2)) == Some(FiveOfAKind)
  {
    var jokered := Jokered(cards);
    assert jokered == [0, 0, 0, 0, 2];
    JokeredClass(jokered);
    JokersAsTwos(jokered);
  }

  /** `JJJJ2` with its jacks made jokers is read as four of a kind. */
  lemma JokeredClass(jokered: seq<nat>)
    requires jokered == [0, 0, 0, 0, 2]
    ensures ClassifyHand(jokered) == Some(FourOfAKind)
  {
    JokeredCounts(jokered);
  }

  /** With its jokers made twos, `JJJJ2` is five of a kind. */
  lemma JokersAsTwos(jokered: seq<nat>)
    requires jokered == [0, 0, 0, 0, 2]
    ensures ClassifyHand(Replace(jokered, Joker, 2)) == Some(FiveOfAKind)
  {
    var twos := Replace(jokered, Joker, 2);
    assert twos == [2, 2, 2, 2, 2];
    TwosCounts(twos);
  }

  // ---------------------------------------------------------------------
  // The wildcard rule as intended.

  /** A card of `among` other than the joker, as frequent in `cards` as
      any other such card. */
  function Best(cards: seq<nat>, among: seq<nat>): (b: nat)
    requires exists c :: c in among && c != Joker
    ensures b in among && b != Joker
    ensures forall c :: c in among && c != Joker ==> Occ(cards, c) <= Occ(cards, b)
    decreases |among|
  {
    assert forall c :: c in among ==> c == among[0] || c in among[1..];
    if !(exists c :: c in among[1..] && c != Joker) then among[0]
    else
      var r := Best(cards, among[1..]);
      if among[0] != Joker && Occ(cards, among[0]) > Occ(cards, r) then among[0] else r
  }

  /** The wildcard class as intended: the jokers count as the most
      frequent other card of the hand. */
  function JokerClass(cards: seq<nat>): Option<Class>
  {
    if Joker !in cards || !(exists c :: c in cards && c != Joker) then ClassifyHand(cards)
    else ClassifyHand(Replace(cards, Joker, Best(cards, cards)))
  }

  /** `Hand::new_wildcard` with the intended wildcard class. */
  function Wildcard(cards: seq<nat>, bid: nat): Option<Hand>
  {
    var category := JokerClass(Jokered(cards));
    if category.None? then None else Some(Hand(cards, category.value, bid))
  }

  /** On five cards the intended `new_wildcard` keeps the cards and bid, and
      its class is one the jacks can make as some card and the strongest of
      those. */
  lemma WildcardMeaning(cards: seq<nat>, bid: nat)
    requires |cards| == 5
    ensures Wildcard(cards, bid).Some?
    ensures var h := Wildcard(cards, bid).value;
            h.cards == cards && h.bid == bid &&
            (exists d :: d != Joker && h.category == AsCard(Jokered(cards), d)) &&
            forall d :: d != Joker ==> Strength(AsCard(Jokered(cards), d)) <= Strength(h.category)
  {
    JokerClassBest(Jokered(cards));
  }

  /** How often each card occurs once `j` is replaced by `d`. */
  lemma {:induction false} ReplaceOcc(cards: seq<nat>, j: nat, d: nat, c: nat)
    requires j != d
    ensures Occ(Replace(cards, j, d), c) ==
      if c == j then 0 else if c == d then Occ(cards, d) + Occ(cards, j) else Occ(cards, c)
    decreases |cards|
  {
    if cards != [] {
      var front := cards[..|cards| - 1];
      var r := Replace(cards, j, d);
      assert r[..|r| - 1] == Replace(front, j, d);
      ReplaceOcc(front, j, d, c);
    }
  }

  /** Replacing a card that is not there changes nothing. */
  lemma ReplaceAbsent(cards: seq<nat>, j: nat, d: nat)
    requires j !in cards
    ensures Replace(cards, j, d) == cards
  {
  }

  /** The different cards once `j`, present, is replaced by `d`. */
  lemma ReplaceKinds(cards: seq<nat>, j: nat, d: nat)
    requires j != d && j in cards
    ensures Kinds(Replace(cards, j, d)) == if d in cards then Kinds(cards) - 1 else Kinds(cards)
  {
    var r := Replace(cards, j, d);
    forall c
      ensures c in r <==> (c in cards && c != j) || c == d
    {
      ReplaceOcc(cards, j, d, c);
      if c == d {
        ReplaceOcc(cards, j, d, j);
        assert Occ(cards, j) > 0;
      }
    }
    var e := Elements(cards);
    assert j in e;
    var without := e - {j};
    assert |without| == |e| - 1;
    assert Elements(r) == without + {d};
    if d in cards {
      assert d in without;
      assert without + {d} == without;
    } else {
      assert d !in without;
    }
  }

  /** The class of the hand with every joker turned into `d`. */
  function AsCard(cards: seq<nat>, d: nat): Class
  {
    KindClass(Kinds(Replace(cards, Joker, d)), Most(Replace(cards, Joker, d)))
  }

  /** With jokers and other cards, turning the jokers into the best card
      leaves no more different cards than turning them into any other. */
  lemma BestKinds(cards: seq<nat>, d: nat)
    requires Joker in cards && exists c :: c in cards && c != Joker
    requires d != Joker
    ensures Kinds(Replace(cards, Joker, Best(cards, cards))) <= Kinds(Replace(cards, Joker, d))
  {
    ReplaceKinds(cards, Joker, Best(cards, cards));
    ReplaceKinds(cards, Joker, d);
  }

  /** The largest multiplicity is bounded by any bound on every card. */
  lemma MostBounded(cards: seq<nat>, bound: nat)
    requires forall c :: c in cards ==> Occ(cards, c) <= bound
    ensures Most(cards) <= bound
  {
  }

  /** With jokers, turning them into a most frequent other card `b`
      leaves no fewer equal cards than turning them into any other card. */
  lemma BestMost(cards: seq<nat>, b: nat, d: nat)
    requires Joker in cards
    requires b in cards && b != Joker
    requires forall c :: c in cards && c != Joker ==> Occ(cards, c) <= Occ(cards, b)
    requires d != Joker
    ensures Most(Replace(cards, Joker, d)) <= Most(Replace(cards, Joker, b))
  {
    var rb := Replace(cards, Joker, b);
    var rd := Replace(cards, Joker, d);
    var top := Occ(cards, b) + Occ(cards, Joker);
    ReplaceOcc(cards, Joker, b, b);
    assert b in rb;
    assert top <= Most(rb);
    forall c | c in rd
      ensures Occ(rd, c) <= top
    {
      ReplaceOcc(cards, Joker, d, c);
      if c != d && c != Joker {
        assert c in cards;
      }
      if c == d && d in cards {
        assert Occ(cards, d) <= Occ(cards, b);
      }
    }
    MostBounded(rd, top);
  }

  /** Without jokers every replacement leaves the hand as it is. */
  lemma NoJokerClass(cards: seq<nat>)
    requires |cards| == 5 && Joker !in cards
    ensures JokerClass(cards) == Some(AsCard(cards, 2))
    ensures forall d :: d != Joker ==> AsCard(cards, d) == AsCard(cards, 2)
  {
    ClassifyPlain(cards);
    forall d | d != Joker
      ensures Replace(cards, Joker, d) == cards
    {
      ReplaceAbsent(cards, Joker, d);
    }
  }

  /** Five jokers are five of a kind, whatever card they become. */
  lemma AllJokerClass(cards: seq<nat>)
    requires |cards| == 5 && Joker in cards && !(exists c :: c in cards && c != Joker)
    ensures JokerClass(cards) == Some(FiveOfAKind) && AsCard(cards, 2) == FiveOfAKind
  {
    AllJokers(cards);
    var twos := Replace(cards, Joker, 2);
    ReplaceOcc(cards, Joker, 2, 2);
    OccOfFive(cards, Joker);
    assert Occ(cards, Joker) == 5 by {
      forall i | 0 <= i < 5
        ensures cards[i] == Joker
      {
        assert cards[i] in cards;
      }
    }
    assert Occ(twos, 2) == 5;
    assert 2 in twos;
    assert Most(twos) >= 5;
  }

  /** With jokers and other cards, the best card gives the strongest class. */
  lemma MixedJokerClass(cards: seq<nat>)
    requires |cards| == 5 && Joker in cards && exists c :: c in cards && c != Joker
    ensures JokerClass(cards) == Some(AsCard(cards, Best(cards, cards)))
    ensures forall d :: d != Joker ==> Strength(AsCard(cards, d)) <= Strength(JokerClass(cards).value)
  {
    var b := Best(cards, cards);
    var rb := Replace(cards, Joker, b);
    forall c | c in rb
      ensures c != Joker
    {
      ReplaceOcc(cards, Joker, b, c);
    }
    ClassifyPlain(rb);
    ShapePairs(rb);
    forall d | d != Joker
      ensures Strength(AsCard(cards, d)) <= Strength(AsCard(cards, b))
    {
      var rd := Replace(cards, Joker, d);
      ShapePairs(rd);
      BestKinds(cards, d);
      BestMost(cards, b, d);
      KindClassMonotone(Kinds(rd), Most(rd), Kinds(rb), Most(rb));
    }
  }

  /** The intended wildcard class of a five-card hand is the class of the
      hand with every joker turned into some one card, and it is at least
      as strong as turning them into any other card. */
  lemma JokerClassBest(cards: seq<nat>)
    requires |cards| == 5
    ensures JokerClass(cards).Some?
    ensures exists d :: d != Joker && JokerClass(cards).value == AsCard(cards, d)
    ensures forall d :: d != Joker ==> Strength(AsCard(cards, d)) <= Strength(JokerClass(cards).value)
  {
    if Joker !in cards {
      NoJokerClass(cards);
    } else if !(exists c :: c in cards && c != Joker) {
      AllJokerClass(cards);
    } else {
      MixedJokerClass(cards);
    }
  }

  /** Five jokers are five of a kind. */
  lemma AllJokers(cards: seq<nat>)
    requires |cards| == 5 && forall c :: c in cards ==> c == Joker
    ensures ClassifyHand(cards) == Some(FiveOfAKind)
  {
    var counts := CardCounts(cards);
    CardCountsMeaning(cards);
    CountsKinds(cards, counts);
    assert Elements(cards) == {Joker} by {
      assert cards[0] in cards;
    }
  }
}
