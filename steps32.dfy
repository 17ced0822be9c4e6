// The branch lemmas of Hand32 and Tail32 restated as implications without
// preconditions, for the 32-bit evaluators' methods: a call adds one fact
// to the method's context instead of a proof obligation per rank field, and
// the method's body stays the sequence of steps the C code takes.

module Steps32 {

  import opened RankSets
  import opened Cards
  import opened Words32
  import opened Bits32
  import opened Ace32
  import opened Eval32
  import opened Loops32
  import opened HandValues
  import opened Hand32
  import opened Tail32

  /** The words A built, and the count word of E made from them. */
  lemma CountStep(w0: bv32, w1: bv32, w2: bv32, w3: bv32, w4: bv32, h: set<int>, count: bv32)
    ensures Accumulates(w0, w1, w2, w3, w4, h) && count == w0 + w1 + w2 + w4 - (w3 & ABOVE_SUITS) ==>
            SlotsHold(w0, w1, w2, w3, w4, h) && CountFacts(count, h)
  {
    AccumulatesElim(w0, w1, w2, w3, w4, h);
  }

  lemma QuadsStep(h: set<int>, w3: bv32, count: bv32, evens: bv32, odds: bv32, value: bv32, kicker: bv32)
    ensures CountFacts(count, h) && Rep(w3 & ABOVE_SUITS, Ranks(h)) &&
            evens == RANKS & count && odds == ODDS & count &&
            value == evens & (odds / 2) && value != 0 && kicker == KeepTop(w3 ^ value) ==>
            Scores(h, 7, value, kicker)
  {
    if CountFacts(count, h) && Rep(w3 & ABOVE_SUITS, Ranks(h)) &&
       evens == RANKS & count && odds == ODDS & count &&
       value == evens & (odds / 2) && value != 0 && kicker == KeepTop(w3 ^ value) {
      QuadsScores(h, w3, count, evens, odds, value, kicker);
    }
  }

  lemma NoQuadsStep(h: set<int>, count: bv32, evens: bv32, odds: bv32)
    ensures CountFacts(count, h) && evens == RANKS & count && odds == ODDS & count &&
            evens & (odds / 2) == 0 ==>
            Quads(h) == {} && Rep(odds / 2, Trips(h)) && Rep(evens, Pairs(h))
  {
    if CountFacts(count, h) && evens == RANKS & count && odds == ODDS & count && evens & (odds / 2) == 0 {
      NoQuadsAt(count, h, evens, odds);
    }
  }

  /** odds & (odds - 1), halved, is (odds / 2) & (odds / 2 - 1). */
  lemma HalfStep(count: bv32, odds: bv32, u: bv32)
    ensures odds == ODDS & count && u == odds & (odds - 1) ==>
            u / 2 == (odds / 2) & (odds / 2 - 1) && (u != 0 <==> u / 2 != 0) &&
            (odds != 0 <==> odds / 2 != 0)
  {
    if odds == ODDS & count && u == odds & (odds - 1) {
      HalfClear(count, odds, u, odds / 2, u / 2);
      HalfNonzero(count, odds, u, u / 2);
      OddsNonzero(count, odds);
    }
  }

  lemma TwoTripsStep(h: set<int>, count: bv32, odds: bv32, t: bv32, u: bv32, value: bv32, kicker: bv32)
    ensures Quads(h) == {} && Rep(t, Trips(h)) && odds == ODDS & count && t == odds / 2 &&
            u == odds & (odds - 1) && u != 0 && value == u / 2 && kicker == t ^ value ==>
            Scores(h, 6, value, kicker)
  {
    if Quads(h) == {} && Rep(t, Trips(h)) && odds == ODDS & count && t == odds / 2 &&
       u == odds & (odds - 1) && u != 0 && value == u / 2 && kicker == t ^ value {
      TwoTripsScores(h, count, odds, t, u, value, kicker);
    }
  }

  /** A single trip (t & (t - 1) == 0) and a pair or two. */
  lemma TripsPairStep(h: set<int>, t: bv32, evens: bv32, temp: bv32, kicker: bv32)
    ensures Quads(h) == {} && Rep(t, Trips(h)) && t != 0 && t & (t - 1) == 0 &&
            Rep(evens, Pairs(h)) && evens != 0 && temp == evens & (evens - 1) &&
            kicker == (if temp != 0 then temp else evens) ==>
            Scores(h, 6, t, kicker)
  {
    if Quads(h) == {} && Rep(t, Trips(h)) && t != 0 && t & (t - 1) == 0 &&
       Rep(evens, Pairs(h)) && evens != 0 && temp == evens & (evens - 1) &&
       kicker == (if temp != 0 then temp else evens) {
      TripsPairScores(h, t, evens, temp, kicker);
    }
  }

  lemma BelowStep(h: set<int>, t: bv32, evens: bv32)
    ensures Quads(h) == {} && Rep(t, Trips(h)) && t & (t - 1) == 0 &&
            Rep(evens, Pairs(h)) && (evens == 0 || t == 0) ==>
            BelowFullHouse(h)
  {
    if Quads(h) == {} && Rep(t, Trips(h)) && t & (t - 1) == 0 && Rep(evens, Pairs(h)) && (evens == 0 || t == 0) {
      NoFullHouseAt(h, t, evens);
    }
  }

  /* ------------------------------------------------------ flush scan */

  /** What the flush scan leaves: no flush and kicker = h[3], or a flush (and
      result 5) with kicker the flush suit's slot and count its counter. */
  ghost predicate Scanned(h: set<int>, w3: bv32, result: bv32, kicker: bv32, count: bv32)
  {
    if result == 0 then kicker == w3 && FlushSuit(h) == 4
    else result == 5 && FlushSuit(h) < 4 && SlotHolds(kicker, h, FlushSuit(h)) &&
         SuitSize(h, FlushSuit(h)) <= 7 && count == Counter(SuitSize(h, FlushSuit(h)))
  }

  /** A test of the scan that succeeds: suit s is the flush suit. */
  lemma FoundScan(x: bv32, h: set<int>, s: int, c: bv32, w3: bv32)
    ensures SlotHolds(x, h, s) && IsHand(h) && |h| <= 7 && c == (x >> s) & 7 && c > 4 ==>
            Scanned(h, w3, 5, x, c)
  {
    if SlotHolds(x, h, s) && IsHand(h) && |h| <= 7 && c == (x >> s) & 7 && c > 4 {
      FlushCounter(x, h, s, c);
      FlushTest(x, h, s, c);
      FlushAt(h, s);
    }
  }

  /** A test of the scan that fails: suit s has fewer than five cards. */
  lemma ShortSuit(x: bv32, h: set<int>, s: int, c: bv32)
    ensures SlotHolds(x, h, s) && IsHand(h) && |h| <= 7 && c == (x >> s) & 7 && c <= 4 ==>
            SuitSize(h, s) < 5
  {
    if SlotHolds(x, h, s) && IsHand(h) && |h| <= 7 && c == (x >> s) & 7 && c <= 4 {
      FlushTest(x, h, s, c);
    }
  }

  /** All four tests fail: no flush. */
  lemma NoneScan(w0: bv32, w1: bv32, w2: bv32, w3: bv32, w4: bv32, h: set<int>, c: bv32)
    ensures SlotHolds(w1, h, 0) && SlotHolds(w2, h, 1) && SlotHolds(w4, h, 2) && SlotHolds(w0, h, 3) &&
            IsHand(h) && |h| <= 7 &&
            (w0 >> 3) & 7 <= 4 && w1 & 7 <= 4 && (w2 >> 1) & 7 <= 4 && (w4 >> 2) & 7 <= 4 ==>
            Scanned(h, w3, 0, w3, c)
  {
    ShiftNone(w1);
    ShortSuit(w0, h, 3, (w0 >> 3) & 7);
    ShortSuit(w1, h, 0, w1 & 7);
    ShortSuit(w2, h, 1, (w2 >> 1) & 7);
    ShortSuit(w4, h, 2, (w4 >> 2) & 7);
    if SuitSize(h, 0) < 5 && SuitSize(h, 1) < 5 && SuitSize(h, 2) < 5 && SuitSize(h, 3) < 5 {
      FlushNone(h);
    }
  }

  /** kicker & -64 after the scan: the ranks the straight test looks at. */
  lemma ScanStep(h: set<int>, w3: bv32, result: bv32, found: bv32, count: bv32, x: bv32)
    ensures Rep(w3 & ABOVE_SUITS, Ranks(h)) && Scanned(h, w3, result, found, count) && x == found & SLOT_RANKS ==>
            Rep(x, StraightRanks(h))
  {
    if Rep(w3 & ABOVE_SUITS, Ranks(h)) && Scanned(h, w3, result, found, count) && x == found & SLOT_RANKS {
      ScanRanks(w3, h, result, found, x);
    }
  }

  /* ------------------------------------------------------- straights */

  lemma RunStep(x: bv32, X: set<int>, v0: bv32, v1: bv32, v2: bv32, v3: bv32, v4: bv32)
    ensures Rep(x, X) && IsRankSet(X) && v0 == x | ((x >> 26) & 16) &&
            v1 == v0 & (v0 * 4) && v2 == v1 & (v1 * 4) && v3 == v2 & (v2 * 4) && v4 == v3 & (v3 * 4) ==>
            Rep(v4, Tops(X)) && (v4 == 0 <==> HighTops(X) == {})
  {
    if Rep(x, X) && IsRankSet(X) && v0 == x | ((x >> 26) & 16) &&
       v1 == v0 & (v0 * 4) && v2 == v1 & (v1 * 4) && v3 == v2 & (v2 * 4) && v4 == v3 & (v3 * 4) {
      StraightWords(x, X, v0, v1, v2, v3, v4);
      StraightTest(v4, X);
    }
  }

  lemma StraightStep(h: set<int>, v4: bv32, value: bv32, result: bv32)
    ensures BelowFullHouse(h) && Rep(v4, Tops(StraightRanks(h))) && v4 != 0 && value == v4 & !(v4 / 4) &&
            result == (if FlushSuit(h) < 4 then 5 else 0) + 4 ==>
            Scores(h, result, value, 0)
  {
    if BelowFullHouse(h) && Rep(v4, Tops(StraightRanks(h))) && v4 != 0 && value == v4 & !(v4 / 4) &&
       result == (if FlushSuit(h) < 4 then 5 else 0) + 4 {
      StraightScores(h, v4, value, result);
    }
  }

  /* ---------------------------------------------------------- flushes */

  lemma FlushStep(h: set<int>, x: bv32, n: nat, kicker: bv32)
    ensures BelowFullHouse(h) && FlushSuit(h) < 4 && HighTops(StraightRanks(h)) == {} &&
            Rep(x, StraightRanks(h)) && n == SuitSize(h, FlushSuit(h)) && kicker == ClearLow(x, n - 5) ==>
            Scores(h, 5, kicker, 0)
  {
    if BelowFullHouse(h) && FlushSuit(h) < 4 && HighTops(StraightRanks(h)) == {} &&
       Rep(x, StraightRanks(h)) && n == SuitSize(h, FlushSuit(h)) && kicker == ClearLow(x, n - 5) {
      FlushScores(h, x, n, kicker);
    }
  }

  lemma NoFlushStep(h: set<int>, x: bv32)
    ensures FlushSuit(h) == 4 && Rep(x, StraightRanks(h)) && HighTops(StraightRanks(h)) == {} ==>
            Rep(x, Ranks(h)) && HighTops(Ranks(h)) == {}
  {
    if FlushSuit(h) == 4 && Rep(x, StraightRanks(h)) && HighTops(StraightRanks(h)) == {} {
      NoFlushFacts(h, x);
    }
  }

  /* --------------------------------------- trips, pairs and high card */

  /** Below a full house, and with neither a straight nor a flush. */
  ghost predicate Plain(h: set<int>)
  {
    BelowFullHouse(h) && FlushSuit(h) == 4 && HighTops(Ranks(h)) == {}
  }

  lemma TripsStep(h: set<int>, t: bv32, x: bv32, k1: bv32, k2: bv32, k3: bv32)
    ensures Plain(h) && Rep(t, Trips(h)) && t != 0 && Rep(x, Ranks(h)) &&
            k1 == x ^ t && k2 == k1 & (k1 - 1) && k3 == k2 & (k2 - 1) ==>
            Scores(h, 3, t, k3)
  {
    if Plain(h) && Rep(t, Trips(h)) && t != 0 && Rep(x, Ranks(h)) &&
       k1 == x ^ t && k2 == k1 & (k1 - 1) && k3 == k2 & (k2 - 1) {
      TripsScores(h, t, x, k1, k2, k3);
    }
  }

  lemma ThreePairsStep(h: set<int>, t: bv32, evens: bv32, temp: bv32, x: bv32, k1: bv32, k2: bv32)
    ensures Plain(h) && Rep(t, Trips(h)) && t == 0 && Rep(evens, Pairs(h)) && evens != 0 &&
            temp == evens & (evens - 1) && temp & (temp - 1) != 0 &&
            Rep(x, Ranks(h)) && k1 == x ^ temp && k2 == k1 & (k1 - 1) ==>
            Scores(h, 2, temp, k2)
  {
    if Plain(h) && Rep(t, Trips(h)) && t == 0 && Rep(evens, Pairs(h)) && evens != 0 &&
       temp == evens & (evens - 1) && temp & (temp - 1) != 0 &&
       Rep(x, Ranks(h)) && k1 == x ^ temp && k2 == k1 & (k1 - 1) {
      RepZero(t, Trips(h));
      ThreePairsScores(h, evens, temp, x, k1, k2);
    }
  }

  lemma PairsStep(h: set<int>, t: bv32, evens: bv32, temp: bv32, c: bv32,
                  x: bv32, k1: bv32, k2: bv32, k3: bv32)
    ensures Plain(h) && Rep(t, Trips(h)) && t == 0 && Rep(evens, Pairs(h)) && evens != 0 &&
            temp == evens & (evens - 1) && temp & (temp - 1) == 0 &&
            c == 1 + (if temp > 0 then 1 else 0) &&
            Rep(x, Ranks(h)) && k1 == x ^ evens && k2 == k1 & (k1 - 1) && k3 == k2 & (k2 - 1) ==>
            Scores(h, c, evens, k3)
  {
    if Plain(h) && Rep(t, Trips(h)) && t == 0 && Rep(evens, Pairs(h)) && evens != 0 &&
       temp == evens & (evens - 1) && temp & (temp - 1) == 0 &&
       c == 1 + (if temp > 0 then 1 else 0) &&
       Rep(x, Ranks(h)) && k1 == x ^ evens && k2 == k1 & (k1 - 1) && k3 == k2 & (k2 - 1) {
      RepZero(t, Trips(h));
      PairsScores(h, evens, temp, c, x, k1, k2, k3);
    }
  }

  lemma HighCardStep(h: set<int>, t: bv32, evens: bv32, x: bv32, k1: bv32, k2: bv32)
    ensures Plain(h) && Rep(t, Trips(h)) && t == 0 && Rep(evens, Pairs(h)) && evens == 0 &&
            Rep(x, Ranks(h)) && k1 == x & (x - 1) && k2 == k1 & (k1 - 1) ==>
            Scores(h, 0, 0, k2)
  {
    if Plain(h) && Rep(t, Trips(h)) && t == 0 && Rep(evens, Pairs(h)) && evens == 0 &&
       Rep(x, Ranks(h)) && k1 == x & (x - 1) && k2 == k1 & (k1 - 1) {
      RepZero(t, Trips(h));
      RepZero(evens, Pairs(h));
      HighCardScores(h, x, k1, k2);
    }
  }
}
