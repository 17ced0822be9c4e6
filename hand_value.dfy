// What every evaluator computes, stated on sets of ranks: the category of a
// hand, the ranks that make the category ("value") and the ranks that break
// ties ("kicker"), and how the three are packed into one 32-bit result
// category << 28 | value << 13 | kicker, with value and kicker as dense
// 13-bit rank masks.
//
// Classify follows the evaluators' decision table branch by branch, including
// the fixed number of low ranks each branch drops; the module Played says
// what those choices mean for hands of seven cards.

module HandValues {

  import opened RankSets
  import opened Cards
  import Dense

  const HIGH_CARD := 0
  const ONE_PAIR := 1
  const TWO_PAIR := 2
  const THREE_OF_A_KIND := 3
  const STRAIGHT := 4
  const FLUSH := 5
  const FULL_HOUSE := 6
  const FOUR_OF_A_KIND := 7
  const STRAIGHT_FLUSH := 9

  datatype HandValue = HandValue(category: int, value: set<int>, kicker: set<int>)

  ghost predicate IsValid(v: HandValue)
  {
    0 <= v.category < 16 && IsRankSet(v.value) && IsRankSet(v.kicker)
  }

  /** The first suit (in the order 0, 1, 2, 3) with five cards or more; 4 if none. */
  ghost function FlushSuit(h: set<int>): (f: int)
    ensures 0 <= f <= 4
    ensures f < 4 ==> SuitSize(h, f) >= 5
    ensures forall s :: 0 <= s < f ==> SuitSize(h, s) < 5
  {
    if SuitSize(h, 0) >= 5 then 0
    else if SuitSize(h, 1) >= 5 then 1
    else if SuitSize(h, 2) >= 5 then 2
    else if SuitSize(h, 3) >= 5 then 3
    else 4
  }

  /** The decision table shared by the evaluators. */
  ghost function Classify(h: set<int>): (v: HandValue)
    ensures IsValid(v)
  {
    var Q := Quads(h);
    var T := Trips(h);
    var P := Pairs(h);
    var R := Ranks(h);
    if Q != {} then
      HandValue(FOUR_OF_A_KIND, Q, Top(R - Q))
    else if |T| >= 2 then
      HandValue(FULL_HOUSE, T - {Lowest(T)}, {Lowest(T)})
    else if T != {} && P != {} then
      HandValue(FULL_HOUSE, T, if |P| >= 2 then P - {Lowest(P)} else P)
    else
      var f := FlushSuit(h);
      var X := if f < 4 then SuitRanks(h, f) else R;
      if HighTops(X) != {} then
        HandValue(if f < 4 then STRAIGHT_FLUSH else STRAIGHT, HighTops(X), {})
      else if f < 4 then
        HandValue(FLUSH, DropLowest(X, |X| - 5), {})
      else if T != {} then
        HandValue(THREE_OF_A_KIND, T, DropLowest(R - T, 2))
      else if |P| >= 3 then
        HandValue(TWO_PAIR, P - {Lowest(P)}, DropLowest(R - (P - {Lowest(P)}), 1))
      else if P != {} then
        HandValue(if |P| >= 2 then TWO_PAIR else ONE_PAIR, P, DropLowest(R - P, 2))
      else
        HandValue(HIGH_CARD, {}, DropLowest(R, 2))
  }

  /** The 32-bit result: category, then the value mask, then the kicker mask. */
  ghost function Pack(v: HandValue): bv32
    requires IsValid(v)
  {
    ((v.category as bv32) << 28) | (Dense.Mask(v.value) << 13) | Dense.Mask(v.kicker)
  }

  /** Five cards of one suit and five of another need ten cards. */
  lemma FlushSuitUnique(h: set<int>, s: int, t: int)
    requires IsHand(h) && |h| <= 7
    requires 0 <= s < 4 && 0 <= t < 4
    requires SuitSize(h, s) >= 5 && SuitSize(h, t) >= 5
    ensures s == t
  {
    HandSize(h);
  }

  /** The ranks held twice, three or four times are ranks of the hand. */
  lemma CountsInRanks(h: set<int>)
    ensures Quads(h) <= Ranks(h) && Trips(h) <= Ranks(h) && Pairs(h) <= Ranks(h)
  {
    forall r | r in Quads(h) + Trips(h) + Pairs(h)
      ensures r in Ranks(h)
    {
      assert Count(h, r) > 0;
    }
  }

  /* The branches of the decision table, one lemma each, in the evaluators'
     order. */

  lemma ClassifyQuads(h: set<int>)
    requires Quads(h) != {}
    ensures Classify(h) == HandValue(FOUR_OF_A_KIND, Quads(h), Top(Ranks(h) - Quads(h)))
  {
  }

  lemma ClassifyTwoTrips(h: set<int>)
    requires Quads(h) == {} && Trips(h) != {} && Trips(h) - {Lowest(Trips(h))} != {}
    ensures Classify(h) == HandValue(FULL_HOUSE, Trips(h) - {Lowest(Trips(h))}, {Lowest(Trips(h))})
  {
    assert |Trips(h) - {Lowest(Trips(h))}| == |Trips(h)| - 1;
  }

  lemma ClassifyTripsPairs(h: set<int>)
    requires Quads(h) == {} && Trips(h) != {} && Trips(h) - {Lowest(Trips(h))} == {} && Pairs(h) != {}
    ensures Classify(h) == HandValue(FULL_HOUSE, Trips(h),
      if Pairs(h) - {Lowest(Pairs(h))} != {} then Pairs(h) - {Lowest(Pairs(h))} else Pairs(h))
  {
    assert |Trips(h) - {Lowest(Trips(h))}| == |Trips(h)| - 1;
    assert |Pairs(h) - {Lowest(Pairs(h))}| == |Pairs(h)| - 1;
  }

  /** No full house or better: at most one trip, and not a trip with a pair. */
  ghost predicate BelowFullHouse(h: set<int>)
  {
    Quads(h) == {} && |Trips(h)| <= 1 && (Trips(h) == {} || Pairs(h) == {})
  }

  /** The code's tests that reach the flush and straight checks. */
  lemma NoFullHouse(h: set<int>)
    requires Quads(h) == {}
    requires Trips(h) == {} || Trips(h) - {Lowest(Trips(h))} == {}
    requires Trips(h) == {} || Pairs(h) == {}
    ensures BelowFullHouse(h)
  {
    if Trips(h) != {} {
      assert |Trips(h) - {Lowest(Trips(h))}| == |Trips(h)| - 1;
    }
  }

  /** The ranks the straight and flush checks look at: the flush suit's, or all. */
  ghost function StraightRanks(h: set<int>): (X: set<int>)
    ensures IsRankSet(X)
  {
    if FlushSuit(h) < 4 then SuitRanks(h, FlushSuit(h)) else Ranks(h)
  }

  lemma ClassifyStraight(h: set<int>)
    requires BelowFullHouse(h) && HighTops(StraightRanks(h)) != {}
    ensures Classify(h) ==
      HandValue(if FlushSuit(h) < 4 then STRAIGHT_FLUSH else STRAIGHT, HighTops(StraightRanks(h)), {})
  {
  }

  lemma ClassifyFlush(h: set<int>)
    requires BelowFullHouse(h) && HighTops(StraightRanks(h)) == {} && FlushSuit(h) < 4
    ensures Classify(h) == HandValue(FLUSH, DropLowest(StraightRanks(h), |StraightRanks(h)| - 5), {})
  {
  }

  lemma ClassifyTrips(h: set<int>)
    requires BelowFullHouse(h) && HighTops(Ranks(h)) == {} && FlushSuit(h) == 4 && Trips(h) != {}
    ensures Classify(h) == HandValue(THREE_OF_A_KIND, Trips(h), DropLowest(Ranks(h) - Trips(h), 2))
  {
  }

  /** Three pairs: the lowest one is not played, and its rank may be the kicker. */
  lemma ClassifyThreePairs(h: set<int>)
    requires BelowFullHouse(h) && HighTops(Ranks(h)) == {} && FlushSuit(h) == 4 && Trips(h) == {}
    requires Pairs(h) != {}
    requires Pairs(h) - {Lowest(Pairs(h))} != {}
    requires Pairs(h) - {Lowest(Pairs(h))} - {Lowest(Pairs(h) - {Lowest(Pairs(h))})} != {}
    ensures Classify(h) == HandValue(TWO_PAIR, Pairs(h) - {Lowest(Pairs(h))},
      DropLowest(Ranks(h) - (Pairs(h) - {Lowest(Pairs(h))}), 1))
  {
    var P := Pairs(h) - {Lowest(Pairs(h))};
    assert |P| == |Pairs(h)| - 1;
    assert |P - {Lowest(P)}| == |P| - 1;
  }

  lemma ClassifyPairs(h: set<int>)
    requires BelowFullHouse(h) && HighTops(Ranks(h)) == {} && FlushSuit(h) == 4 && Trips(h) == {}
    requires Pairs(h) != {}
    requires var P := Pairs(h) - {Lowest(Pairs(h))}; P == {} || P - {Lowest(P)} == {}
    ensures Classify(h) == HandValue(if Pairs(h) - {Lowest(Pairs(h))} != {} then TWO_PAIR else ONE_PAIR,
      Pairs(h), DropLowest(Ranks(h) - Pairs(h), 2))
  {
    var P := Pairs(h) - {Lowest(Pairs(h))};
    assert |P| == |Pairs(h)| - 1;
    if P != {} {
      assert |P - {Lowest(P)}| == |P| - 1;
    }
  }

  lemma ClassifyHighCard(h: set<int>)
    requires BelowFullHouse(h) && HighTops(Ranks(h)) == {} && FlushSuit(h) == 4 && Trips(h) == {}
    requires Pairs(h) == {}
    ensures Classify(h) == HandValue(HIGH_CARD, {}, DropLowest(Ranks(h), 2))
  {
  }

  /** Pack with the category and the two masks already computed. */
  lemma PackOf(v: HandValue, c: int, a: bv32, b: bv32)
    requires IsValid(v) && v.category == c
    requires a == Dense.Mask(v.value) && b == Dense.Mask(v.kicker)
    ensures ((c as bv32) << 28) | (a << 13) | b == Pack(v)
  {
  }

  /** No flush: the straight check looked at all the ranks. */
  lemma NoFlushRanks(h: set<int>)
    requires FlushSuit(h) == 4
    ensures StraightRanks(h) == Ranks(h)
  {
  }

  lemma FlushFound(h: set<int>, i: int)
    requires 0 <= i < 4 && SuitSize(h, i) >= 5
    requires forall j :: 0 <= j < i ==> SuitSize(h, j) < 5
    ensures FlushSuit(h) == i
  {
  }

  lemma FlushNone(h: set<int>)
    requires forall j :: 0 <= j < 4 ==> SuitSize(h, j) < 5
    ensures FlushSuit(h) == 4
  {
  }

  /** The flush suit's ranks: five of them at least. */
  lemma FlushRanks(h: set<int>)
    requires FlushSuit(h) < 4
    ensures |StraightRanks(h)| == SuitSize(h, FlushSuit(h)) >= 5
  {
  }
}
