// What the decision table's fixed trims mean. Classify drops a fixed number
// of the lowest ranks in each branch (two beside three of a kind, two beside
// pairs, one beside three pairs, two of a high-card hand), the number that
// leaves five played cards when the hand has seven. The lemmas here count the
// cards of a hand by rank and prove, for seven-card hands, how many ranks
// each category keeps; that the kickers are always the highest of the ranks
// left over; and that the three fields of the packed score can be read back.

module Played {

  import opened RankSets
  import opened Cards
  import opened HandValues
  import Dense

  /** The elements of S below n. */
  ghost function Prefix(S: set<int>, n: int): set<int>
  {
    set r | r in S && r < n
  }

  lemma PrefixStep(S: set<int>, n: int)
    ensures |Prefix(S, n + 1)| == |Prefix(S, n)| + if n in S then 1 else 0
  {
    if n in S {
      assert Prefix(S, n + 1) == Prefix(S, n) + {n};
    } else {
      assert Prefix(S, n + 1) == Prefix(S, n);
    }
  }

  lemma PrefixEnds(S: set<int>)
    requires IsRankSet(S)
    ensures Prefix(S, 0) == {} && Prefix(S, 13) == S
  {
    if Prefix(S, 0) != {} {
      var x := Pick(Prefix(S, 0));
    }
  }

  /** The number of cards of the ranks below n. */
  ghost function CardsBelow(h: set<int>, n: nat): int
  {
    if n == 0 then 0 else CardsBelow(h, n - 1) + Count(h, n - 1)
  }

  /** Counted suit by suit ... */
  lemma {:induction false} BySuits(h: set<int>, n: nat)
    ensures CardsBelow(h, n) == |Prefix(SuitRanks(h, 0), n)| + |Prefix(SuitRanks(h, 1), n)| +
                                |Prefix(SuitRanks(h, 2), n)| + |Prefix(SuitRanks(h, 3), n)|
  {
    if n == 0 {
      PrefixEnds(SuitRanks(h, 0));
      PrefixEnds(SuitRanks(h, 1));
      PrefixEnds(SuitRanks(h, 2));
      PrefixEnds(SuitRanks(h, 3));
    } else {
      var m := n - 1;
      BySuits(h, m);
      PrefixStep(SuitRanks(h, 0), m);
      PrefixStep(SuitRanks(h, 1), m);
      PrefixStep(SuitRanks(h, 2), m);
      PrefixStep(SuitRanks(h, 3), m);
    }
  }

  /** ... and by how many times each rank is held: a rank held k times is in
      Ranks, and in Pairs, Trips or Quads for k = 2, 3, 4. */
  lemma {:induction false} ByCounts(h: set<int>, n: nat)
    requires n <= 13
    ensures CardsBelow(h, n) == |Prefix(Ranks(h), n)| + |Prefix(Pairs(h), n)| +
                                2 * |Prefix(Trips(h), n)| + 3 * |Prefix(Quads(h), n)|
  {
    if n == 0 {
      PrefixEnds(Ranks(h));
      PrefixEnds(Pairs(h));
      PrefixEnds(Trips(h));
      PrefixEnds(Quads(h));
    } else {
      var m := n - 1;
      ByCounts(h, m);
      PrefixStep(Ranks(h), m);
      PrefixStep(Pairs(h), m);
      PrefixStep(Trips(h), m);
      PrefixStep(Quads(h), m);
      assert m in Ranks(h) <==> Count(h, m) > 0;
    }
  }

  /** A hand's size is the number of its ranks, plus one for each pair, two
      for each trip and three for each quad. */
  lemma HandCounts(h: set<int>)
    requires IsHand(h)
    ensures |h| == |Ranks(h)| + |Pairs(h)| + 2 * |Trips(h)| + 3 * |Quads(h)|
  {
    HandSize(h);
    BySuits(h, 13);
    ByCounts(h, 13);
    PrefixEnds(SuitRanks(h, 0));
    PrefixEnds(SuitRanks(h, 1));
    PrefixEnds(SuitRanks(h, 2));
    PrefixEnds(SuitRanks(h, 3));
    PrefixEnds(Ranks(h));
    PrefixEnds(Pairs(h));
    PrefixEnds(Trips(h));
    PrefixEnds(Quads(h));
  }

  /** The ranks held two, three and four times are distinct ranks of the hand. */
  lemma Multiples(h: set<int>)
    ensures |Ranks(h)| >= |Pairs(h)| + |Trips(h)| + |Quads(h)|
  {
    CountsInRanks(h);
    var M := Pairs(h) + Trips(h) + Quads(h);
    assert Pairs(h) * Trips(h) == {} && (Pairs(h) + Trips(h)) * Quads(h) == {};
    assert |M| == |Pairs(h)| + |Trips(h)| + |Quads(h)|;
    assert M <= Ranks(h);
    SubsetSize(M, Ranks(h));
  }

  lemma SubsetSize(A: set<int>, B: set<int>)
    requires A <= B
    ensures |A| <= |B|
  {
    assert B == A + (B - A);
  }

  /* Seven cards: one lemma per category of Classify. */

  /** Four of a kind among seven cards: one quad rank and one kicker. */
  lemma SevenQuads(h: set<int>)
    requires IsHand(h) && |h| == 7 && Quads(h) != {}
    ensures |Classify(h).value| == 1 && |Classify(h).kicker| == 1
  {
    HandCounts(h);
    Multiples(h);
    CountsInRanks(h);
    var R, Q := Ranks(h), Quads(h);
    assert |R - Q| == |R| - |Q|;
  }

  /** A full house among seven cards: one rank over one rank. */
  lemma SevenFullHouse(h: set<int>)
    requires IsHand(h) && |h| == 7 && Quads(h) == {} && Trips(h) != {}
    requires |Trips(h)| >= 2 || Pairs(h) != {}
    ensures Classify(h).category == FULL_HOUSE
    ensures |Classify(h).value| == 1 && |Classify(h).kicker| == 1
  {
    HandCounts(h);
    Multiples(h);
    var T, P := Trips(h), Pairs(h);
    if |T| >= 2 {
      assert |T - {Lowest(T)}| == |T| - 1;
    } else {
      assert |P - {Lowest(P)}| == |P| - 1;
    }
  }

  /** A flush keeps the five highest ranks of its suit. */
  lemma FlushFive(h: set<int>)
    requires Classify(h).category == FLUSH
    ensures |Classify(h).value| == 5 && Classify(h).kicker == {}
    ensures forall x, y :: x in Classify(h).value && y in StraightRanks(h) - Classify(h).value ==> y < x
  {
    var X := StraightRanks(h);
    FlushRanks(h);
    DropLowestSize(X, |X| - 5);
    forall x, y | x in Classify(h).value && y in X - Classify(h).value
      ensures y < x
    {
      DropLowestOrder(X, |X| - 5, x, y);
    }
  }

  /** Three of a kind among seven cards: two kickers. */
  lemma SevenTrips(h: set<int>)
    requires IsHand(h) && |h| == 7 && Classify(h).category == THREE_OF_A_KIND
    ensures |Classify(h).value| == 1 && |Classify(h).kicker| == 2
  {
    HandCounts(h);
    Multiples(h);
    CountsInRanks(h);
    var R, T := Ranks(h), Trips(h);
    assert Quads(h) == {} && Pairs(h) == {} && |T| == 1;
    assert Classify(h).kicker == DropLowest(R - T, 2);
    assert |R - T| == |R| - |T|;
    DropLowestSize(R - T, 2);
  }

  /** Two pair among seven cards (from two pairs or three): one kicker. */
  lemma SevenTwoPair(h: set<int>)
    requires IsHand(h) && |h| == 7 && Classify(h).category == TWO_PAIR
    ensures |Classify(h).value| == 2 && |Classify(h).kicker| == 1
  {
    HandCounts(h);
    Multiples(h);
    CountsInRanks(h);
    var R, P := Ranks(h), Pairs(h);
    assert |P - {Lowest(P)}| == |P| - 1;
    if |P| >= 3 {
      var V := P - {Lowest(P)};
      assert |R - V| == |R| - |V|;
      DropLowestSize(R - V, 1);
    } else {
      assert |R - P| == |R| - |P|;
      DropLowestSize(R - P, 2);
    }
  }

  /** One pair among seven cards: three kickers. */
  lemma SevenOnePair(h: set<int>)
    requires IsHand(h) && |h| == 7 && Classify(h).category == ONE_PAIR
    ensures |Classify(h).value| == 1 && |Classify(h).kicker| == 3
  {
    HandCounts(h);
    Multiples(h);
    CountsInRanks(h);
    var R, P := Ranks(h), Pairs(h);
    assert |P - {Lowest(P)}| == |P| - 1;
    assert |R - P| == |R| - |P|;
    DropLowestSize(R - P, 2);
  }

  /** High card among seven cards: the five highest ranks. */
  lemma SevenHighCard(h: set<int>)
    requires IsHand(h) && |h| == 7 && Classify(h).category == HIGH_CARD
    ensures Classify(h).value == {} && |Classify(h).kicker| == 5
  {
    HandCounts(h);
    Multiples(h);
    assert Quads(h) == {} && Trips(h) == {} && Pairs(h) == {};
    assert Classify(h).kicker == DropLowest(Ranks(h), 2);
    DropLowestSize(Ranks(h), 2);
  }

  /** Whatever the hand's size, the kickers of four of a kind, three of a
      kind, pairs and high card are above every rank the table leaves out. */
  lemma KickersHighest(h: set<int>, x: int, y: int)
    requires Classify(h).category in {FOUR_OF_A_KIND, THREE_OF_A_KIND, TWO_PAIR, ONE_PAIR, HIGH_CARD}
    requires x in Classify(h).kicker && y in Ranks(h) - Classify(h).value - Classify(h).kicker
    ensures y < x
  {
    var v := Classify(h);
    var R, P := Ranks(h), Pairs(h);
    if v.category == FOUR_OF_A_KIND {
      assert Quads(h) != {};
      var S := R - Quads(h);
      assert x == Highest(S) && y in S;
    } else if v.category == THREE_OF_A_KIND {
      DropLowestOrder(R - Trips(h), 2, x, y);
    } else if v.category == HIGH_CARD {
      DropLowestOrder(R, 2, x, y);
    } else if v.category == TWO_PAIR && |P| >= 3 {
      var V := P - {Lowest(P)};
      DropLowestOrder(R - V, 1, x, y);
    } else {
      DropLowestOrder(R - P, 2, x, y);
    }
  }

  /** The packed score's fields read back: the category above bit 28, the
      value mask in bits 13 .. 25 and the kicker mask in bits 0 .. 12. */
  lemma PackFields(v: HandValue)
    requires IsValid(v)
    ensures Pack(v) >> 28 == v.category as bv32
    ensures (Pack(v) >> 13) & 0x1FFF == Dense.Mask(v.value)
    ensures Pack(v) & 0x1FFF == Dense.Mask(v.kicker)
  {
    Dense.MaskBound(v.value);
    Dense.MaskBound(v.kicker);
    var t := v.category as bv32;
    assert t < 16;
    FieldsBack(t, Dense.Mask(v.value), Dense.Mask(v.kicker));
  }

  lemma FieldsBack(t: bv32, a: bv32, b: bv32)
    requires t < 16 && a < 0x2000 && b < 0x2000
    ensures ((t << 28) | (a << 13) | b) >> 28 == t
    ensures (((t << 28) | (a << 13) | b) >> 13) & 0x1FFF == a
    ensures ((t << 28) | (a << 13) | b) & 0x1FFF == b
  {
  }
}
