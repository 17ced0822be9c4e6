// The later branches of the 32-bit evaluators' E, shared by
// ace_eval_decompress.c, ace_eval_base.c and ace_eval_mini.c: the flush scan
// over the suit counters, the straight test on h[3] (or on the flush suit's
// slot), the flush trim, three of a kind, pairs and high card. Each lemma
// ends in Hand32.Scores: the category, value and kicker words the branch
// leaves are the decision table's answer for the hand.

module Tail32 {

  import opened RankSets
  import opened Cards
  import opened Words32
  import opened Bits32
  import opened Ace32
  import opened Eval32
  import opened Loops32
  import opened HandValues
  import opened Hand32

  /* ------------------------------------------------------ the flush scan */

  /** h[3] & -64: the ranks of the hand. */
  lemma PresenceWord(w3: bv32, h: set<int>, x: bv32)
    requires Rep(w3 & ABOVE_SUITS, Ranks(h)) && x == w3 & SLOT_RANKS
    ensures Rep(x, Ranks(h))
  {
  }

  /** The counter of suit s, read as (x >> s) & 7, is the suit's number of
      cards ... */
  lemma FlushCounter(x: bv32, h: set<int>, s: int, c: bv32)
    requires SlotHolds(x, h, s) && IsHand(h) && |h| <= 7 && c == (x >> s) & 7
    ensures SuitSize(h, s) <= 7 && c == Counter(SuitSize(h, s))
  {
    HandSize(h);
    LowRead(x, SuitSize(h, s), s);
  }

  /** ... so the tests c > 4 and c >= 5 ask for five cards of the suit. */
  lemma FlushTest(x: bv32, h: set<int>, s: int, c: bv32)
    requires SlotHolds(x, h, s) && IsHand(h) && |h| <= 7 && c == (x >> s) & 7
    ensures c > 4 <==> SuitSize(h, s) >= 5
    ensures c >= 5 <==> SuitSize(h, s) >= 5
  {
    FlushCounter(x, h, s, c);
    CounterSmall(SuitSize(h, s));
  }

  lemma ShiftNone(x: bv32)
    ensures x >> 0 == x
  {
  }

  /** A suit of five cards is the flush suit, whichever order the suits are
      tried in: a hand of seven cards has no room for two. */
  lemma FlushAt(h: set<int>, s: int)
    requires IsHand(h) && |h| <= 7 && 0 <= s < 4 && SuitSize(h, s) >= 5
    ensures FlushSuit(h) == s
  {
    forall t | 0 <= t < s
      ensures SuitSize(h, t) < 5
    {
      if SuitSize(h, t) >= 5 {
        FlushSuitUnique(h, s, t);
      }
    }
    FlushFound(h, s);
  }

  /** After the scan, kicker & -64 holds the ranks the straight test looks at:
      the flush suit's when there is one, else all of them. */
  lemma ScanRanks(w3: bv32, h: set<int>, result: bv32, slot: bv32, x: bv32)
    requires Rep(w3 & ABOVE_SUITS, Ranks(h))
    requires result == 0 ==> slot == w3 && FlushSuit(h) == 4
    requires result != 0 ==> FlushSuit(h) < 4 && Rep(slot & SLOT_RANKS, SuitRanks(h, FlushSuit(h)))
    requires x == slot & SLOT_RANKS
    ensures Rep(x, StraightRanks(h))
  {
    if result == 0 {
      NoFlushScan(w3, h, x);
    } else {
      FlushSlotRanks(slot, h, FlushSuit(h), x);
    }
  }

  lemma NoFlushScan(w3: bv32, h: set<int>, x: bv32)
    requires Rep(w3 & ABOVE_SUITS, Ranks(h)) && FlushSuit(h) == 4 && x == w3 & SLOT_RANKS
    ensures Rep(x, StraightRanks(h))
  {
    PresenceWord(w3, h, x);
    NoFlushRanks(h);
  }

  lemma FlushSlotRanks(slot: bv32, h: set<int>, f: int, x: bv32)
    requires f == FlushSuit(h) && f < 4 && Rep(slot & SLOT_RANKS, SuitRanks(h, f)) && x == slot & SLOT_RANKS
    ensures Rep(x, StraightRanks(h))
  {
    assert StraightRanks(h) == SuitRanks(h, f);
  }

  /* ------------------------------------------------------------ straights */

  /** value = kicker | (kicker >> 26) & 16: the ace copied to position -1. */
  lemma AceRun(x: bv32, X: set<int>, v0: bv32)
    requires Rep(x, X) && IsRankSet(X) && v0 == x | ((x >> 26) & 16)
    ensures Rep(v0, Run(Extended(X), 0))
  {
    RepAceCopy(x, X);
  }

  /** value &= value * 4: one more rank in a row. */
  lemma RunRound(v: bv32, E: set<int>, k: nat, w: bv32)
    requires Rep(v, Run(E, k)) && w == v & (v * 4)
    ensures Rep(w, Run(E, k + 1))
  {
    RepAndUp(v, v, Run(E, k), Run(E, k));
  }

  lemma RunIsTops(v: bv32, X: set<int>)
    requires Rep(v, Run(Extended(X), 4)) && IsRankSet(X)
    ensures Rep(v, Tops(X))
  {
    RunTops(X);
  }

  /** Four rounds leave the tops of the straights. */
  lemma StraightWords(x: bv32, X: set<int>, v0: bv32, v1: bv32, v2: bv32, v3: bv32, v4: bv32)
    requires Rep(x, X) && IsRankSet(X) && v0 == x | ((x >> 26) & 16)
    requires v1 == v0 & (v0 * 4) && v2 == v1 & (v1 * 4)
    requires v3 == v2 & (v2 * 4) && v4 == v3 & (v3 * 4)
    ensures Rep(v4, Tops(X))
  {
    AceRun(x, X, v0);
    RunRound(v0, Extended(X), 0, v1);
    RunRound(v1, Extended(X), 1, v2);
    RunRound(v2, Extended(X), 2, v3);
    RunRound(v3, Extended(X), 3, v4);
    RunIsTops(v4, X);
  }

  /** value &= ~(value / 4) keeps the top of the highest straight. */
  lemma HighWord(v: bv32, X: set<int>, u: bv32)
    requires Rep(v, Tops(X)) && u == v & !(v / 4)
    ensures Rep(u, HighTops(X))
  {
    RepAndNotDown(v, v, Tops(X), Tops(X));
    HighTopsDown(X);
  }

  /** The code's straight test is the table's. */
  lemma StraightTest(v: bv32, X: set<int>)
    requires Rep(v, Tops(X))
    ensures v == 0 <==> HighTops(X) == {}
  {
    RepZero(v, Tops(X));
    HighTopsEmpty(X);
  }

  lemma StraightTable(h: set<int>, V: set<int>, result: bv32, value: bv32)
    requires BelowFullHouse(h) && HighTops(StraightRanks(h)) != {}
    requires result == (if FlushSuit(h) < 4 then 5 else 0) + 4
    requires V == HighTops(StraightRanks(h)) && Fields(value, V)
    ensures Scores(h, result, value, 0)
  {
    ClassifyStraight(h);
    RankFields(0, {});
    if FlushSuit(h) < 4 {
      ScoresOf(h, STRAIGHT_FLUSH, V, {}, result, value, 0);
    } else {
      ScoresOf(h, STRAIGHT, V, {}, result, value, 0);
    }
  }

  /** A straight, or a straight flush on the flush suit's ranks: its top, and
      no kicker. */
  lemma StraightScores(h: set<int>, v4: bv32, value: bv32, result: bv32)
    requires BelowFullHouse(h) && Rep(v4, Tops(StraightRanks(h)))
    requires v4 != 0 && value == v4 & !(v4 / 4)
    requires result == (if FlushSuit(h) < 4 then 5 else 0) + 4
    ensures Scores(h, result, value, 0)
  {
    StraightTest(v4, StraightRanks(h));
    HighWord(v4, StraightRanks(h), value);
    RankFields(value, HighTops(StraightRanks(h)));
    StraightTable(h, HighTops(StraightRanks(h)), result, value);
  }

  /* ---------------------------------------------------------- the flush */

  lemma FlushTable(h: set<int>, V: set<int>, kicker: bv32)
    requires BelowFullHouse(h) && FlushSuit(h) < 4 && HighTops(StraightRanks(h)) == {}
    requires |StraightRanks(h)| >= 5 && V == DropLowest(StraightRanks(h), |StraightRanks(h)| - 5)
    requires Fields(kicker, V)
    ensures Scores(h, 5, kicker, 0)
  {
    ClassifyFlush(h);
    RankFields(0, {});
    ScoresOf(h, FLUSH, V, {}, 5, kicker, 0);
  }

  /** A flush: n - 5 rounds of kicker &= kicker - 1 leave the five highest
      ranks of the suit, with no kicker. */
  lemma FlushScores(h: set<int>, x: bv32, n: nat, kicker: bv32)
    requires BelowFullHouse(h) && FlushSuit(h) < 4 && HighTops(StraightRanks(h)) == {}
    requires Rep(x, StraightRanks(h)) && n == SuitSize(h, FlushSuit(h)) && kicker == ClearLow(x, n - 5)
    ensures Scores(h, 5, kicker, 0)
  {
    FlushRanks(h);
    ClearLowRep(x, StraightRanks(h), n - 5);
    RankFields(kicker, DropLowest(StraightRanks(h), n - 5));
    FlushTable(h, DropLowest(StraightRanks(h), n - 5), kicker);
  }

  /** The flush suit's ranks outnumber the rounds, so the trim never reaches
      an empty word. */
  lemma FlushNonzero(h: set<int>, x: bv32, n: nat, j: nat)
    requires FlushSuit(h) < 4 && Rep(x, StraightRanks(h)) && n == SuitSize(h, FlushSuit(h)) && j < n
    ensures ClearLow(x, j) != 0
  {
    FlushRanks(h);
    ClearLowRep(x, StraightRanks(h), j);
    DropLowestSize(StraightRanks(h), j);
    RepZero(ClearLow(x, j), DropLowest(StraightRanks(h), j));
  }

  /* --------------------------------------------- trips, pairs, high card */

  lemma ClearOnce(x: bv32, S: set<int>, k1: bv32)
    requires Rep(x, S) && k1 == x & (x - 1)
    ensures Rep(k1, DropLowest(S, 1))
  {
    ClearLowRep(x, S, 1);
  }

  lemma ClearTwice(x: bv32, S: set<int>, k1: bv32, k2: bv32)
    requires Rep(x, S) && k1 == x & (x - 1) && k2 == k1 & (k1 - 1)
    ensures Rep(k2, DropLowest(S, 2))
  {
    ClearLowStep(x, 1);
    ClearLowRep(x, S, 2);
  }

  /** kicker ^= value removes the value's ranks from the ranks of the hand. */
  lemma XorKick(x: bv32, y: bv32, R: set<int>, T: set<int>, k: bv32)
    requires Rep(x, R) && Rep(y, T) && T <= R && k == x ^ y
    ensures Rep(k, R - T)
  {
    RepXorSub(x, y, R, T);
  }

  lemma TripsTable(h: set<int>, K: set<int>, t: bv32, kicker: bv32)
    requires BelowFullHouse(h) && HighTops(Ranks(h)) == {} && FlushSuit(h) == 4 && Trips(h) != {}
    requires K == DropLowest(Ranks(h) - Trips(h), 2) && Fields(t, Trips(h)) && Fields(kicker, K)
    ensures Scores(h, 3, t, kicker)
  {
    ClassifyTrips(h);
    ScoresOf(h, THREE_OF_A_KIND, Trips(h), K, 3, t, kicker);
  }

  /** Three of a kind: the trip, then the ranks left once the trip and the
      two lowest others are gone. */
  lemma TripsScores(h: set<int>, t: bv32, x: bv32, k1: bv32, k2: bv32, k3: bv32)
    requires BelowFullHouse(h) && HighTops(Ranks(h)) == {} && FlushSuit(h) == 4
    requires Rep(t, Trips(h)) && t != 0 && Rep(x, Ranks(h))
    requires k1 == x ^ t && k2 == k1 & (k1 - 1) && k3 == k2 & (k2 - 1)
    ensures Scores(h, 3, t, k3)
  {
    NonzeroRep(t, Trips(h));
    CountsInRanks(h);
    XorKick(x, t, Ranks(h), Trips(h), k1);
    ClearTwice(k1, Ranks(h) - Trips(h), k2, k3);
    RankFields(t, Trips(h));
    RankFields(k3, DropLowest(Ranks(h) - Trips(h), 2));
    TripsTable(h, DropLowest(Ranks(h) - Trips(h), 2), t, k3);
  }

  /** temp = evens & (evens - 1) with more than one bit: three pairs. */
  lemma ThreePairsWords(evens: bv32, P: set<int>, temp: bv32)
    requires Rep(evens, P) && IsRankSet(P) && evens != 0 && temp == evens & (evens - 1)
    requires temp & (temp - 1) != 0
    ensures P != {} && P - {Lowest(P)} != {} && (P - {Lowest(P)}) - {Lowest(P - {Lowest(P)})} != {}
    ensures Rep(temp, P - {Lowest(P)})
  {
    NonzeroRep(evens, P);
    ClearRep(evens, P, temp);
    ClearNonzero(temp);
    NonzeroRep(temp, P - {Lowest(P)});
    ClearRep(temp, P - {Lowest(P)}, temp & (temp - 1));
    NonzeroRep(temp & (temp - 1), (P - {Lowest(P)}) - {Lowest(P - {Lowest(P)})});
  }

  lemma ThreePairsTable(h: set<int>, V: set<int>, K: set<int>, temp: bv32, kicker: bv32)
    requires BelowFullHouse(h) && HighTops(Ranks(h)) == {} && FlushSuit(h) == 4 && Trips(h) == {}
    requires Pairs(h) != {}
    requires V == Pairs(h) - {Lowest(Pairs(h))} && V != {} && V - {Lowest(V)} != {}
    requires K == DropLowest(Ranks(h) - V, 1)
    requires Fields(temp, V) && Fields(kicker, K)
    ensures Scores(h, 2, temp, kicker)
  {
    ClassifyThreePairs(h);
    ScoresOf(h, TWO_PAIR, V, K, 2, temp, kicker);
  }

  lemma ThreePairsKick(h: set<int>, temp: bv32, x: bv32, k1: bv32, k2: bv32)
    requires Pairs(h) != {} && Rep(temp, Pairs(h) - {Lowest(Pairs(h))}) && Rep(x, Ranks(h))
    requires k1 == x ^ temp && k2 == k1 & (k1 - 1)
    ensures Fields(k2, DropLowest(Ranks(h) - (Pairs(h) - {Lowest(Pairs(h))}), 1))
  {
    CountsInRanks(h);
    XorKick(x, temp, Ranks(h), Pairs(h) - {Lowest(Pairs(h))}, k1);
    ClearOnce(k1, Ranks(h) - (Pairs(h) - {Lowest(Pairs(h))}), k2);
    RankFields(k2, DropLowest(Ranks(h) - (Pairs(h) - {Lowest(Pairs(h))}), 1));
  }

  /** Three pairs: the two higher ones, then the highest rank left once the
      lowest other rank is gone (the lowest pair may be it). */
  lemma ThreePairsScores(h: set<int>, evens: bv32, temp: bv32, x: bv32, k1: bv32, k2: bv32)
    requires BelowFullHouse(h) && HighTops(Ranks(h)) == {} && FlushSuit(h) == 4 && Trips(h) == {}
    requires Rep(evens, Pairs(h)) && evens != 0 && temp == evens & (evens - 1) && temp & (temp - 1) != 0
    requires Rep(x, Ranks(h)) && k1 == x ^ temp && k2 == k1 & (k1 - 1)
    ensures Scores(h, 2, temp, k2)
  {
    ThreePairsWords(evens, Pairs(h), temp);
    ThreePairsKick(h, temp, x, k1, k2);
    RankFields(temp, Pairs(h) - {Lowest(Pairs(h))});
    ThreePairsTable(h, Pairs(h) - {Lowest(Pairs(h))},
      DropLowest(Ranks(h) - (Pairs(h) - {Lowest(Pairs(h))}), 1), temp, k2);
  }

  /** temp = evens & (evens - 1) with at most one bit: one or two pairs, and
      temp is non-zero exactly when there are two. */
  lemma PairsWords(evens: bv32, P: set<int>, temp: bv32)
    requires Rep(evens, P) && IsRankSet(P) && evens != 0 && temp == evens & (evens - 1)
    requires temp & (temp - 1) == 0
    ensures P != {}
    ensures var Q := P - {Lowest(P)}; (Q == {} || Q - {Lowest(Q)} == {}) && (temp != 0 <==> Q != {})
  {
    NonzeroRep(evens, P);
    ClearRep(evens, P, temp);
    RepZero(temp, P - {Lowest(P)});
    if temp != 0 {
      ClearRep(temp, P - {Lowest(P)}, temp & (temp - 1));
      RepZero(temp & (temp - 1), (P - {Lowest(P)}) - {Lowest(P - {Lowest(P)})});
    }
  }

  lemma TwoPairTable(h: set<int>, Q: set<int>, evens: bv32, K: set<int>, kicker: bv32)
    requires BelowFullHouse(h) && HighTops(Ranks(h)) == {} && FlushSuit(h) == 4 && Trips(h) == {}
    requires Pairs(h) != {}
    requires Q == Pairs(h) - {Lowest(Pairs(h))} && Q != {} && Q - {Lowest(Q)} == {}
    requires K == DropLowest(Ranks(h) - Pairs(h), 2) && Fields(evens, Pairs(h)) && Fields(kicker, K)
    ensures Scores(h, 2, evens, kicker)
  {
    ClassifyPairs(h);
    ScoresOf(h, TWO_PAIR, Pairs(h), K, 2, evens, kicker);
  }

  lemma OnePairTable(h: set<int>, evens: bv32, K: set<int>, kicker: bv32)
    requires BelowFullHouse(h) && HighTops(Ranks(h)) == {} && FlushSuit(h) == 4 && Trips(h) == {}
    requires Pairs(h) != {} && Pairs(h) - {Lowest(Pairs(h))} == {}
    requires K == DropLowest(Ranks(h) - Pairs(h), 2) && Fields(evens, Pairs(h)) && Fields(kicker, K)
    ensures Scores(h, 1, evens, kicker)
  {
    ClassifyPairs(h);
    ScoresOf(h, ONE_PAIR, Pairs(h), K, 1, evens, kicker);
  }

  lemma PairsKick(h: set<int>, evens: bv32, x: bv32, k1: bv32, k2: bv32, k3: bv32)
    requires Rep(evens, Pairs(h)) && Rep(x, Ranks(h))
    requires k1 == x ^ evens && k2 == k1 & (k1 - 1) && k3 == k2 & (k2 - 1)
    ensures Fields(k3, DropLowest(Ranks(h) - Pairs(h), 2))
  {
    CountsInRanks(h);
    XorKick(x, evens, Ranks(h), Pairs(h), k1);
    ClearTwice(k1, Ranks(h) - Pairs(h), k2, k3);
    RankFields(k3, DropLowest(Ranks(h) - Pairs(h), 2));
  }

  /** One pair or two: the pairs, category 1 + (temp > 0), then the ranks left
      once the pairs and the two lowest others are gone. */
  lemma PairsScores(h: set<int>, evens: bv32, temp: bv32, t: bv32, x: bv32, k1: bv32, k2: bv32, k3: bv32)
    requires BelowFullHouse(h) && HighTops(Ranks(h)) == {} && FlushSuit(h) == 4 && Trips(h) == {}
    requires Rep(evens, Pairs(h)) && evens != 0 && temp == evens & (evens - 1) && temp & (temp - 1) == 0
    requires t == 1 + (if temp > 0 then 1 else 0)
    requires Rep(x, Ranks(h)) && k1 == x ^ evens && k2 == k1 & (k1 - 1) && k3 == k2 & (k2 - 1)
    ensures Scores(h, t, evens, k3)
  {
    PairsWords(evens, Pairs(h), temp);
    PairsKick(h, evens, x, k1, k2, k3);
    RankFields(evens, Pairs(h));
    if temp != 0 {
      TwoPairTable(h, Pairs(h) - {Lowest(Pairs(h))}, evens, DropLowest(Ranks(h) - Pairs(h), 2), k3);
    } else {
      OnePairTable(h, evens, DropLowest(Ranks(h) - Pairs(h), 2), k3);
    }
  }

  lemma HighCardTable(h: set<int>, K: set<int>, kicker: bv32)
    requires BelowFullHouse(h) && HighTops(Ranks(h)) == {} && FlushSuit(h) == 4
    requires Trips(h) == {} && Pairs(h) == {}
    requires K == DropLowest(Ranks(h), 2) && Fields(kicker, K)
    ensures Scores(h, 0, 0, kicker)
  {
    ClassifyHighCard(h);
    RankFields(0, {});
    ScoresOf(h, HIGH_CARD, {}, K, 0, 0, kicker);
  }

  /** High card: the ranks left once the two lowest are gone, as the kicker. */
  lemma HighCardScores(h: set<int>, x: bv32, k1: bv32, k2: bv32)
    requires BelowFullHouse(h) && HighTops(Ranks(h)) == {} && FlushSuit(h) == 4
    requires Trips(h) == {} && Pairs(h) == {}
    requires Rep(x, Ranks(h)) && k1 == x & (x - 1) && k2 == k1 & (k1 - 1)
    ensures Scores(h, 0, 0, k2)
  {
    ClearTwice(x, Ranks(h), k1, k2);
    RankFields(k2, DropLowest(Ranks(h), 2));
    HighCardTable(h, DropLowest(Ranks(h), 2), k2);
  }

  /** Without a flush the straight test looked at all the ranks. */
  lemma NoFlushFacts(h: set<int>, x: bv32)
    requires FlushSuit(h) == 4 && Rep(x, StraightRanks(h)) && HighTops(StraightRanks(h)) == {}
    ensures Rep(x, Ranks(h)) && HighTops(Ranks(h)) == {}
  {
    NoFlushRanks(h);
  }

  /* ------------------------------------------------------------- loops */

  /** while (count-- > 5) kicker &= kicker - 1; with count the number n of
      cards of the flush suit: the n - 5 lowest ranks are cleared. */
  method DropToFive(kicker0: bv32, count0: bv32, ghost n: nat) returns (kicker: bv32, count: bv32)
    requires 5 <= n <= 7 && count0 == Counter(n)
    ensures kicker == ClearLow(kicker0, n - 5) && count == Counter(4)
  {
    kicker, count := kicker0, count0;
    ghost var k: nat := n;
    while count > 5
      invariant 5 <= k <= n && count == Counter(k) && kicker == ClearLow(kicker0, n - k)
      decreases k
    {
      CounterSmall(k);
      count := count - 1;
      kicker := kicker & (kicker - 1);
      ClearLowStep(kicker0, n - k);
      k := k - 1;
    }
    CounterSmall(k);
    count := count - 1;
  }

  /** while ((temp = kicker & (kicker - 1))) kicker = temp; */
  method KeepHighest(k0: bv32) returns (kicker: bv32)
    ensures kicker == KeepTop(k0)
  {
    kicker := k0;
    var temp := kicker & (kicker - 1);
    while temp != 0
      invariant temp == kicker & (kicker - 1) && KeepTop(kicker) == KeepTop(k0)
      decreases kicker
    {
      Shrinks(kicker);
      KeepTopStep(kicker, temp);
      kicker := temp;
      temp := kicker & (kicker - 1);
    }
    KeepTopFixed(kicker);
  }
}
