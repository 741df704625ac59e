/** Day 7 (day07/src/main.rs): `Hand::card_counts`, the multiplicities of
    the cards of a hand as `CountCard(count, card)` entries sorted by count,
    then card. */
module Day07Counts {

  /** `CountCard`: how often a card occurs, and the card. */
  datatype CountCard = CountCard(count: nat, card: nat)

  /** The derived order of `CountCard`: by count, then by card. */
  predicate Below(a: CountCard, b: CountCard)
  {
    a.count < b.count || (a.count == b.count && a.card < b.card)
  }

  /** Strictly ascending in the derived order. */
  predicate Sorted(s: seq<CountCard>)
  {
    forall i, j :: 0 <= i < j < |s| ==> Below(s[i], s[j])
  }

  /** How often `c` occurs among the cards. */
  function Occ(cards: seq<nat>, c: nat): (n: nat)
    ensures n <= |cards|
    ensures n > 0 <==> c in cards
    decreases |cards|
  {
    if cards == [] then 0
    else
      var front := cards[..|cards| - 1];
      assert cards == front + [cards[|cards| - 1]];
      Occ(front, c) + (if cards[|cards| - 1] == c then 1 else 0)
  }

  /** The different cards. */
  function Elements(cards: seq<nat>): set<nat>
  {
    set c | c in cards
  }

  /** The number of different cards. */
  function Kinds(cards: seq<nat>): nat
  {
    |Elements(cards)|
  }

  /** The largest multiplicity of a card (0 for no cards). */
  function Most(cards: seq<nat>): (m: nat)
  {
    MostOf(cards, cards)
  }

  /** The largest multiplicity in `cards` of a card of `among`. */
  function MostOf(cards: seq<nat>, among: seq<nat>): (m: nat)
    ensures forall c :: c in among ==> Occ(cards, c) <= m
    ensures among != [] ==> exists c :: c in among && Occ(cards, c) == m
    ensures among == [] ==> m == 0
    decreases |among|
  {
    if among == [] then 0
    else
      var rest := MostOf(cards, among[1..]);
      var here := Occ(cards, among[0]);
      assert forall c :: c in among ==> c == among[0] || c in among[1..];
      if rest < here then here
      else
        assert among[1..] == [] ==> rest == 0;
        if among[1..] == [] then here else rest
  }

  /** What `card_counts` returns: sorted, one entry per different card of
      the hand, each with its multiplicity. */
  predicate CountsOf(cards: seq<nat>, counts: seq<CountCard>)
  {
    Sorted(counts) &&
    (forall i :: 0 <= i < |counts| ==> counts[i].card in cards && counts[i].count == Occ(cards, counts[i].card)) &&
    (forall c :: c in cards ==> exists i :: 0 <= i < |counts| && counts[i].card == c)
  }

  // ---------------------------------------------------------------------
  // A reference construction.

  /** The cards without repetitions, in order of last appearance. */
  function Distinct(cards: seq<nat>): (d: seq<nat>)
    ensures forall c :: c in d <==> c in cards
    ensures forall i, j :: 0 <= i < j < |d| ==> d[i] != d[j]
    decreases |cards|
  {
    if cards == [] then []
    else
      var rest := Distinct(cards[1..]);
      assert forall c :: c in cards <==> c == cards[0] || c in cards[1..];
      if cards[0] in rest then rest else [cards[0]] + rest
  }

  /** Inserting an entry into a sorted list of entries. */
  function Insert(s: seq<CountCard>, x: CountCard): (r: seq<CountCard>)
    requires Sorted(s) && x !in s
    ensures Sorted(r)
    ensures forall y :: y in r <==> y in s || y == x
    decreases |s|
  {
    if s == [] then [x]
    else if Below(x, s[0]) then
      assert forall j :: 0 < j < |s| ==> Below(s[0], s[j]);
      [x] + s
    else
      var tail := Insert(s[1..], x);
      assert forall y :: y in s[1..] ==> Below(s[0], y);
      [s[0]] + tail
  }

  /** The entries of the given cards, sorted. */
  function SortedEntries(cards: seq<nat>, keys: seq<nat>): (r: seq<CountCard>)
    requires forall i, j :: 0 <= i < j < |keys| ==> keys[i] != keys[j]
    ensures Sorted(r)
    ensures forall y :: y in r <==> y.card in keys && y.count == Occ(cards, y.card)
    decreases |keys|
  {
    if keys == [] then []
    else
      var front := keys[..|keys| - 1];
      var last := keys[|keys| - 1];
      assert forall k :: k in keys <==> k in front || k == last;
      assert last !in front;
      Insert(SortedEntries(cards, front), CountCard(Occ(cards, last), last))
  }

  /** The entries of a hand, sorted. */
  function CardCounts(cards: seq<nat>): seq<CountCard>
  {
    SortedEntries(cards, Distinct(cards))
  }

  /** `CardCounts` is what `card_counts` promises. */
  lemma CardCountsMeaning(cards: seq<nat>)
    ensures CountsOf(cards, CardCounts(cards))
  {
    var counts := CardCounts(cards);
    forall c | c in cards
      ensures exists i :: 0 <= i < |counts| && counts[i].card == c
    {
      assert CountCard(Occ(cards, c), c) in counts;
    }
  }

  /** The first entry of a sorted list is below all the others. */
  lemma SortedFirst(a: seq<CountCard>, y: CountCard)
    requires Sorted(a) && a != [] && y in a
    ensures y == a[0] || Below(a[0], y)
  {
    var i :| 0 <= i < |a| && a[i] == y;
    if i != 0 {
      assert Below(a[0], a[i]);
    }
  }

  /** Two sorted lists with the same entries are the same list. */
  lemma {:induction false} SortedUnique(a: seq<CountCard>, b: seq<CountCard>)
    requires Sorted(a) && Sorted(b)
    requires forall y :: y in a <==> y in b
    ensures a == b
    decreases |a|
  {
    if a == [] {
      FirstIn(b);
    } else {
      assert a[0] in b;
      SortedFirst(a, b[0]);
      SortedFirst(b, a[0]);
      assert a[0] == b[0];
      forall y
        ensures y in a[1..] <==> y in b[1..]
      {
        if y in a[1..] {
          var j :| 1 <= j < |a| && a[j] == y;
          assert Below(a[0], y);
          assert y in a && y in b;
          var k :| 0 <= k < |b| && b[k] == y;
          assert k != 0 && b[1..][k - 1] == y;
        }
        if y in b[1..] {
          var j :| 1 <= j < |b| && b[j] == y;
          assert Below(b[0], y);
          assert y in b && y in a;
          var k :| 0 <= k < |a| && a[k] == y;
          assert k != 0 && a[1..][k - 1] == y;
        }
      }
      SortedUnique(a[1..], b[1..]);
      assert a == [a[0]] + a[1..] && b == [b[0]] + b[1..];
    }
  }

  /** Only one list is what `card_counts` promises. */
  lemma CountsOfUnique(cards: seq<nat>, counts: seq<CountCard>)
    requires CountsOf(cards, counts)
    ensures counts == CardCounts(cards)
  {
    var r := CardCounts(cards);
    CardCountsMeaning(cards);
    forall y
      ensures y in counts <==> y in r
    {
      if y in counts {
        var i :| 0 <= i < |counts| && counts[i] == y;
        assert y.card in cards;
      }
      if y in r {
        var i :| 0 <= i < |counts| && counts[i].card == y.card;
      }
    }
    SortedUnique(counts, r);
  }

  /** The first half of `card_counts`: a hash map from card to count,
      filled card by card. */
  method Tally(cards: seq<nat>) returns (m: map<nat, nat>)
    ensures forall c :: c in m <==> c in cards
    ensures forall c :: c in m ==> m[c] == Occ(cards, c)
  {
    m := map[];
    for i := 0 to |cards|
      invariant forall c :: c in m <==> c in cards[..i]
      invariant forall c :: c in m ==> m[c] == Occ(cards[..i], c)
    {
      assert cards[..i + 1][..i] == cards[..i];
      var card := cards[i];
      if card in m {
        m := m[card := m[card] + 1];
      } else {
        m := m[card := 1];
      }
    }
    assert cards[..|cards|] == cards;
  }

  /** The second half of `card_counts`: the entries of the map collected
      and sorted. */
  method Collect(m: map<nat, nat>) returns (counts: seq<CountCard>)
    ensures Sorted(counts)
    ensures forall y :: y in counts <==> y.card in m && y.count == m[y.card]
  {
    counts := [];
    var rest := m.Keys;
    while rest != {}
      invariant rest <= m.Keys
      invariant Sorted(counts)
      invariant forall y :: y in counts <==> y.card in m && y.card !in rest && y.count == m[y.card]
      decreases |rest|
    {
      var k :| k in rest;
      counts := Insert(counts, CountCard(m[k], k));
      rest := rest - {k};
    }
  }

  /** `card_counts`. */
  method CountCards(cards: seq<nat>) returns (counts: seq<CountCard>)
    ensures counts == CardCounts(cards)
  {
    var m := Tally(cards);
    counts := Collect(m);
    forall c | c in cards
      ensures exists i :: 0 <= i < |counts| && counts[i].card == c
    {
      assert CountCard(m[c], c) in counts;
    }
    forall i | 0 <= i < |counts|
      ensures counts[i].card in cards && counts[i].count == Occ(cards, counts[i].card)
    {
      assert counts[i] in counts;
    }
    CountsOfUnique(cards, counts);
  }

  // ---------------------------------------------------------------------
  // What the entries say about the hand.

  /** The sum of the counts. */
  function Total(counts: seq<CountCard>): nat
    decreases |counts|
  {
    if counts == [] then 0 else counts[0].count + Total(counts[1..])
  }

  /** The cards other than `c`. */
  function Without(cards: seq<nat>, c: nat): (r: seq<nat>)
    ensures |cards| == |r| + Occ(cards, c)
    ensures forall d :: Occ(r, d) == if d == c then 0 else Occ(cards, d)
    decreases |cards|
  {
    if cards == [] then []
    else
      var front := cards[..|cards| - 1];
      var last := cards[|cards| - 1];
      var r := Without(front, c);
      if last == c then r
      else
        assert (r + [last])[..|r|] == r;
        r + [last]
  }

  /** A list that is not empty holds its first element. */
  lemma FirstIn<T>(s: seq<T>)
    ensures s != [] ==> s[0] in s
  {
  }

  /** The counts add up to the number of cards. */
  lemma {:induction false} CountsTotal(cards: seq<nat>, counts: seq<CountCard>)
    requires CountsOf(cards, counts)
    ensures Total(counts) == |cards|
    decreases |counts|
  {
    if counts == [] {
      FirstIn(cards);
    } else {
      var c := counts[0].card;
      var others := Without(cards, c);
      var tail := counts[1..];
      assert Sorted(tail);
      forall d | d in others
        ensures exists i :: 0 <= i < |tail| && tail[i].card == d
      {
        assert Occ(others, d) > 0;
        var i :| 0 <= i < |counts| && counts[i].card == d;
        assert i != 0;
        assert tail[i - 1].card == d;
      }
      forall i | 0 <= i < |tail|
        ensures tail[i].card in others && tail[i].count == Occ(others, tail[i].card)
      {
        assert Below(counts[0], counts[i + 1]);
        assert tail[i].card != c;
      }
      assert forall d :: d in others ==> exists i :: 0 <= i < |tail| && tail[i].card == d;
      CountsTotal(others, tail);
    }
  }

  /** The cards of the entries, in order. */
  function CardsOf(counts: seq<CountCard>): (r: seq<nat>)
    ensures |r| == |counts|
    ensures forall i :: 0 <= i < |r| ==> r[i] == counts[i].card
  {
    seq(|counts|, i requires 0 <= i < |counts| => counts[i].card)
  }

  /** The number of entries is the number of different cards. */
  lemma CountsKinds(cards: seq<nat>, counts: seq<CountCard>)
    requires CountsOf(cards, counts)
    ensures |counts| == Kinds(cards)
  {
    var keys := CardsOf(counts);
    forall i, j | 0 <= i < j < |keys|
      ensures keys[i] != keys[j]
    {
      assert Below(counts[i], counts[j]);
    }
    forall c | c in cards
      ensures c in keys
    {
      var i :| 0 <= i < |counts| && counts[i].card == c;
      assert keys[i] == c;
    }
    assert Elements(keys) == Elements(cards);
    DistinctSize(keys);
  }

  /** A list without repetitions has as many elements as its set. */
  lemma {:induction false} DistinctSize(s: seq<nat>)
    requires forall i, j :: 0 <= i < j < |s| ==> s[i] != s[j]
    ensures |Elements(s)| == |s|
    decreases |s|
  {
    if s != [] {
      var t := s[1..];
      assert forall i, j :: 0 <= i < j < |t| ==> t[i] == s[i + 1] && t[j] == s[j + 1];
      DistinctSize(t);
      assert forall i :: 0 <= i < |t| ==> t[i] != s[0];
      assert s[0] !in Elements(t);
      assert forall c :: c in s <==> c in t || c == s[0];
      assert Elements(s) == Elements(t) + {s[0]};
    }
  }

  /** The last entry holds the largest multiplicity. */
  lemma CountsMost(cards: seq<nat>, counts: seq<CountCard>)
    requires CountsOf(cards, counts)
    requires counts != []
    ensures counts[|counts| - 1].count == Most(cards)
  {
    var last := |counts| - 1;
    assert counts[0].card in cards;
    var c :| c in cards && Occ(cards, c) == Most(cards);
    var i :| 0 <= i < |counts| && counts[i].card == c;
    if i != last {
      assert Below(counts[i], counts[last]);
    }
    assert counts[last].card in cards;
  }

  /** Every count is at least one, and they do not decrease. */
  lemma CountsShape(cards: seq<nat>, counts: seq<CountCard>)
    requires CountsOf(cards, counts)
    ensures forall i :: 0 <= i < |counts| ==> counts[i].count >= 1
    ensures forall i, j :: 0 <= i < j < |counts| ==> counts[i].count <= counts[j].count
  {
    forall i, j | 0 <= i < j < |counts|
      ensures counts[i].count <= counts[j].count
    {
      assert Below(counts[i], counts[j]);
    }
  }
}
