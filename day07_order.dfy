/** Day 7 (day07/src/main.rs): `Ord for Hand`, the sort of the hands and
    the ranking sum. */
module Day07Order {

  import opened Day07

  /** `Ordering`. */
  datatype Ordering = Less | Equal | Greater

  /** `Ordering::reverse`. */
  function Flip(o: Ordering): Ordering
  {
    match o
    case Less => Greater
    case Equal => Equal
    case Greater => Less
  }

  /** The cards compared pairwise (`zip`), the first pair that differs
      deciding; `Equal` when the shorter list runs out first. */
  function CompareCards(a: seq<nat>, b: seq<nat>): Ordering
    decreases |a|
  {
    if a == [] || b == [] then Equal
    else if a[0] < b[0] then Less
    else if a[0] > b[0] then Greater
    else CompareCards(a[1..], b[1..])
  }

  /** `Hand::cmp`: the class first, then the cards; the bid plays no part. */
  function Compare(x: Hand, y: Hand): Ordering
  {
    if Strength(x.category) > Strength(y.category) then Greater
    else if Strength(x.category) < Strength(y.category) then Less
    else CompareCards(x.cards, y.cards)
  }

  /** Cards of the same length compare as the first position where they
      differ: `Less` exactly when `a` is smaller there, `Equal` exactly when
      there is none. */
  lemma {:induction false} CompareCardsMeaning(a: seq<nat>, b: seq<nat>)
    requires |a| == |b|
    ensures CompareCards(a, b) == Equal <==> a == b
    ensures CompareCards(a, b) == Less <==> exists i :: 0 <= i < |a| && a[..i] == b[..i] && a[i] < b[i]
    decreases |a|
  {
    if a != [] {
      CompareCardsMeaning(a[1..], b[1..]);
      if a[0] == b[0] {
        if a[1..] == b[1..] {
          assert a == [a[0]] + a[1..] && b == [b[0]] + b[1..];
        }
        if CompareCards(a, b) == Less {
          var i :| 0 <= i < |a[1..]| && a[1..][..i] == b[1..][..i] && a[1..][i] < b[1..][i];
          assert a[..i + 1] == [a[0]] + a[1..][..i];
          assert b[..i + 1] == [b[0]] + b[1..][..i];
        }
        if exists i :: 0 <= i < |a| && a[..i] == b[..i] && a[i] < b[i] {
          var i :| 0 <= i < |a| && a[..i] == b[..i] && a[i] < b[i];
          assert i != 0;
          assert a[1..][..i - 1] == a[..i][1..] && b[1..][..i - 1] == b[..i][1..];
        }
      } else {
        assert a[..0] == b[..0];
        forall i | 0 < i < |a|
          ensures a[..i] != b[..i]
        {
          assert a[..i][0] != b[..i][0];
        }
      }
    }
  }

  /** Swapping the cards reverses their comparison. */
  lemma {:induction false} CompareCardsFlip(a: seq<nat>, b: seq<nat>)
    ensures CompareCards(b, a) == Flip(CompareCards(a, b))
    decreases |a|
  {
    if a != [] && b != [] && a[0] == b[0] {
      CompareCardsFlip(a[1..], b[1..]);
    }
  }

  /** The comparison of cards of one length is transitive. */
  lemma {:induction false} CompareCardsTransitive(a: seq<nat>, b: seq<nat>, c: seq<nat>)
    requires |a| == |b| == |c|
    requires CompareCards(a, b) != Greater && CompareCards(b, c) != Greater
    ensures CompareCards(a, c) != Greater
    ensures CompareCards(a, b) == Less || CompareCards(b, c) == Less ==> CompareCards(a, c) == Less
    decreases |a|
  {
    if a != [] && a[0] == b[0] && b[0] == c[0] {
      CompareCardsTransitive(a[1..], b[1..], c[1..]);
    }
  }

  /** Swapping two hands reverses their comparison. */
  lemma CompareFlip(x: Hand, y: Hand)
    ensures Compare(y, x) == Flip(Compare(x, y))
  {
    CompareCardsFlip(x.cards, y.cards);
  }

  /** Two hands of as many cards are `Equal` exactly when their classes and
      cards are the same, whatever the bids. */
  lemma CompareEqual(x: Hand, y: Hand)
    requires |x.cards| == |y.cards|
    ensures Compare(x, y) == Equal <==> x.category == y.category && x.cards == y.cards
  {
    CompareCardsMeaning(x.cards, y.cards);
  }

  /** The bid plays no part in the comparison. */
  lemma CompareIgnoresBid(x: Hand, y: Hand, bid: nat)
    ensures Compare(x.(bid := bid), y) == Compare(x, y)
    ensures Compare(x, y.(bid := bid)) == Compare(x, y)
  {
  }

  /** On hands of five cards the comparison is a total preorder. */
  lemma CompareTransitive(x: Hand, y: Hand, z: Hand)
    requires |x.cards| == |y.cards| == |z.cards|
    requires Compare(x, y) != Greater && Compare(y, z) != Greater
    ensures Compare(x, z) != Greater
    ensures Compare(x, y) == Less || Compare(y, z) == Less ==> Compare(x, z) == Less
  {
    if Strength(x.category) == Strength(y.category) == Strength(z.category) {
      CompareCardsTransitive(x.cards, y.cards, z.cards);
    }
  }

  // ---------------------------------------------------------------------
  // `hands.sort()` and the ranking sum.

  /** Every hand has five cards. */
  predicate FiveCards(hands: seq<Hand>)
  {
    forall h :: h in hands ==> |h.cards| == 5
  }

  /** No hand compares `Greater` than a later one. */
  predicate Ranked(hands: seq<Hand>)
  {
    forall i, j :: 0 <= i < j < |hands| ==> Compare(hands[i], hands[j]) != Greater
  }

  /** A hand put into a ranked list, after the hands it does not beat and
      before the first one that beats it. */
  function InsertHand(ranked: seq<Hand>, h: Hand): (r: seq<Hand>)
    requires Ranked(ranked) && FiveCards(ranked) && |h.cards| == 5
    ensures Ranked(r)
    ensures multiset(r) == multiset(ranked) + multiset{h}
    ensures forall y :: y in r <==> y in ranked || y == h
    decreases |ranked|
  {
    if ranked == [] then [h]
    else if Compare(h, ranked[0]) == Less then
      InsertFront(ranked, h);
      [h] + ranked
    else
      var tail := InsertHand(ranked[1..], h);
      InsertBehind(ranked, h, tail);
      [ranked[0]] + tail
  }

  /** A hand beaten by the first of a ranked list goes in front of all. */
  lemma InsertFront(ranked: seq<Hand>, h: Hand)
    requires Ranked(ranked) && FiveCards(ranked) && |h.cards| == 5
    requires ranked != [] && Compare(h, ranked[0]) == Less
    ensures Ranked([h] + ranked)
  {
    forall j | 0 <= j < |ranked|
      ensures Compare(h, ranked[j]) != Greater
    {
      if j > 0 {
        assert ranked[j] in ranked;
        CompareTransitive(h, ranked[0], ranked[j]);
      }
    }
  }

  /** A hand not beaten by the first of a ranked list goes after it. */
  lemma InsertBehind(ranked: seq<Hand>, h: Hand, tail: seq<Hand>)
    requires Ranked(ranked) && ranked != [] && Compare(h, ranked[0]) != Less
    requires Ranked(tail) && multiset(tail) == multiset(ranked[1..]) + multiset{h}
    requires forall y :: y in tail <==> y in ranked[1..] || y == h
    ensures Ranked([ranked[0]] + tail)
    ensures multiset([ranked[0]] + tail) == multiset(ranked) + multiset{h}
    ensures forall y :: y in [ranked[0]] + tail <==> y in ranked || y == h
  {
    CompareFlip(h, ranked[0]);
    assert forall y :: y in ranked[1..] ==> y in ranked;
    forall y | y in tail
      ensures Compare(ranked[0], y) != Greater
    {
      if y != h {
        var j :| 1 <= j < |ranked| && ranked[j] == y;
      }
    }
    assert ranked == [ranked[0]] + ranked[1..];
  }

  /** `hands.sort()`: a stable sort, here by insertion in the input order. */
  function SortHands(hands: seq<Hand>): (r: seq<Hand>)
    requires FiveCards(hands)
    ensures Ranked(r)
    ensures multiset(r) == multiset(hands)
    ensures forall y :: y in r <==> y in hands
    decreases |hands|
  {
    if hands == [] then []
    else
      var front := hands[..|hands| - 1];
      var last := hands[|hands| - 1];
      assert hands == front + [last];
      assert forall y :: y in front ==> y in hands;
      InsertHand(SortHands(front), last)
  }

  /** The sum of the bids. */
  function Bids(hands: seq<Hand>): nat
    decreases |hands|
  {
    if hands == [] then 0 else Bids(hands[..|hands| - 1]) + hands[|hands| - 1].bid
  }

  /** The ranking sum: each bid times its rank, ranks counted from 1. */
  function Winnings(ranked: seq<Hand>): nat
    decreases |ranked|
  {
    if ranked == [] then 0 else Winnings(ranked[..|ranked| - 1]) + ranked[|ranked| - 1].bid * |ranked|
  }

  /** Putting a weakest hand in front raises every other rank by one: it
      adds its own bid and one more of every other bid. */
  lemma {:induction false} WinningsShift(h: Hand, ranked: seq<Hand>)
    ensures Winnings([h] + ranked) == h.bid + Winnings(ranked) + Bids(ranked)
    decreases |ranked|
  {
    if ranked == [] {
      assert [h] + ranked == [h];
      assert [h][..0] == [];
    } else {
      var front := ranked[..|ranked| - 1];
      var last := ranked[|ranked| - 1];
      var whole := [h] + ranked;
      assert whole[..|whole| - 1] == [h] + front && whole[|whole| - 1] == last;
      assert Winnings(whole) == Winnings([h] + front) + last.bid * (|ranked| + 1);
      assert Winnings(ranked) == Winnings(front) + last.bid * |ranked|;
      assert Bids(ranked) == Bids(front) + last.bid;
      WinningsShift(h, front);
      assert last.bid * (|ranked| + 1) == last.bid * |ranked| + last.bid;
    }
  }

  /** The ranking sum lies between the sum of the bids and that sum times
      the number of hands. */
  lemma {:induction false} WinningsBounds(ranked: seq<Hand>)
    ensures Bids(ranked) <= Winnings(ranked) <= |ranked| * Bids(ranked)
    decreases |ranked|
  {
    if ranked != [] {
      var front := ranked[..|ranked| - 1];
      var n := |ranked|;
      var b := ranked[n - 1].bid;
      var sum := Bids(front);
      WinningsBounds(front);
      BoundsStep(n, b, sum, Winnings(front));
    }
  }

  /** One more hand, of bid `b` and rank `n`, keeps the bounds. */
  lemma BoundsStep(n: nat, b: nat, sum: nat, w: nat)
    requires n >= 1 && sum <= w <= (n - 1) * sum
    ensures sum + b <= w + b * n <= n * (sum + b)
  {
    MulMonotone(1, n, b);
    MulMonotone(n - 1, n, sum);
    assert n * (sum + b) == n * sum + n * b;
    assert b * n == n * b;
  }

  lemma MulMonotone(x: nat, y: nat, k: nat)
    requires x <= y
    ensures x * k <= y * k
  {
  }
}
