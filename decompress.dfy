// E of ace_eval_decompress.c: the 32-bit evaluator that returns from each
// branch, with the DECOMPRESS2 compress. It reads the five words A built,
// forms the count word h0 + h1 + h2 + h4 - (h3 & -16), and goes down the
// decision table: four of a kind, the two kinds of full house, then the
// flush scan over the suit counters (suits 3, 0, 1, 2), the straight test,
// the flush trim, three of a kind, pairs and high card. Every exit is proved
// to be Pack(Classify(h)).

module Decompress {

  import opened RankSets
  import opened Cards
  import opened Words32
  import opened Bits32
  import opened Ace32
  import opened Eval32
  import opened Loops32
  import opened HandValues
  import opened Hand32
  import opened Tail32
  import opened Steps32
  import opened Compress32
  import Dense

  /* ------------------------------------------------------- the result */

  /** A category word, a value word and a kicker word that score the hand,
      put together as E does: the packed hand value. */
  lemma PackScores(h: set<int>, t: bv32, value: bv32, kicker: bv32)
    requires Scores(h, t, value, kicker)
    ensures (t << 28) | (Compress2(value) << 13) | Compress2(kicker) == Pack(Classify(h))
  {
    var v := Classify(h);
    Compress2Mask(value, v.value);
    Compress2Mask(kicker, v.kicker);
    CategoryCast(v.category);
    PackOf(v, v.category, Compress2(value), Compress2(kicker));
  }

  lemma PackStep(h: set<int>, t: bv32, value: bv32, kicker: bv32)
    ensures Scores(h, t, value, kicker) ==>
            (t << 28) | (Compress2(value) << 13) | Compress2(kicker) == Pack(Classify(h))
  {
    if Scores(h, t, value, kicker) {
      PackScores(h, t, value, kicker);
    }
  }

  /** The straights and the flush return no kicker ... */
  lemma PackValueStep(h: set<int>, t: bv32, value: bv32)
    ensures Scores(h, t, value, 0) ==> (t << 28) | (Compress2(value) << 13) == Pack(Classify(h))
  {
    PackStep(h, t, value, 0);
  }

  /** ... and high card no value. */
  lemma PackKickerStep(h: set<int>, kicker: bv32)
    ensures Scores(h, 0, 0, kicker) ==> 0 | (0 << 13) | Compress2(kicker) == Pack(Classify(h))
  {
    PackStep(h, 0, 0, kicker);
  }

  /* ------------------------------------------------------------ exits */

  // Each exit of E as one implication: the words the branch computed, and
  // the facts it starts from, give the packed hand value it returns.

  lemma QuadsExit(h: set<int>, w3: bv32, count: bv32, evens: bv32, odds: bv32, value: bv32, kicker: bv32)
    ensures CountFacts(count, h) && Rep(w3 & ABOVE_SUITS, Ranks(h)) &&
            evens == RANKS & count && odds == ODDS & count && value == evens & (odds / 2) &&
            value != 0 && kicker == KeepTop(w3 ^ value) ==>
            (7 << 28) | (Compress2(value) << 13) | Compress2(kicker) == Pack(Classify(h))
  {
    QuadsStep(h, w3, count, evens, odds, value, kicker);
    PackStep(h, 7, value, kicker);
  }

  lemma TwoTripsExit(h: set<int>, count: bv32, odds: bv32, t: bv32, u: bv32, value: bv32, kicker: bv32)
    ensures Quads(h) == {} && Rep(t, Trips(h)) && odds == ODDS & count && t == odds / 2 &&
            u == odds & (odds - 1) && u != 0 && value == u / 2 && kicker == t ^ value ==>
            (6 << 28) | (Compress2(value) << 13) | Compress2(kicker) == Pack(Classify(h))
  {
    TwoTripsStep(h, count, odds, t, u, value, kicker);
    PackStep(h, 6, value, kicker);
  }

  /** A single trip (odds & (odds - 1) == 0) and a pair or two. */
  lemma TripsPairExit(h: set<int>, count: bv32, odds: bv32, t: bv32, evens: bv32, temp: bv32, kicker: bv32)
    ensures Quads(h) == {} && Rep(t, Trips(h)) && odds == ODDS & count && t == odds / 2 &&
            odds & (odds - 1) == 0 && odds != 0 &&
            Rep(evens, Pairs(h)) && evens != 0 && temp == evens & (evens - 1) &&
            kicker == (if temp != 0 then temp else evens) ==>
            (6 << 28) | (Compress2(t) << 13) | Compress2(kicker) == Pack(Classify(h))
  {
    HalfStep(count, odds, odds & (odds - 1));
    TripsPairStep(h, t, evens, temp, kicker);
    PackStep(h, 6, t, kicker);
  }

  /** No four of a kind, at most one trip, and then no pair: below a full
      house, with the trip and pair planes in hand. */
  lemma BelowPlanes(h: set<int>, count: bv32, evens: bv32, odds: bv32)
    ensures CountFacts(count, h) && evens == RANKS & count && odds == ODDS & count &&
            evens & (odds / 2) == 0 && odds & (odds - 1) == 0 && !(evens != 0 && odds != 0) ==>
            BelowFullHouse(h) && Rep(odds / 2, Trips(h)) && Rep(evens, Pairs(h))
  {
    NoQuadsStep(h, count, evens, odds);
    HalfStep(count, odds, odds & (odds - 1));
    BelowStep(h, odds / 2, evens);
  }

  lemma StraightExit(h: set<int>, v4: bv32, value: bv32, result: bv32)
    ensures BelowFullHouse(h) && Rep(v4, Tops(StraightRanks(h))) && v4 != 0 && value == v4 & !(v4 / 4) &&
            result == (if FlushSuit(h) < 4 then 5 else 0) + 4 ==>
            (result << 28) | (Compress2(value) << 13) == Pack(Classify(h))
  {
    StraightStep(h, v4, value, result);
    PackValueStep(h, result, value);
  }

  lemma FlushExit(h: set<int>, x: bv32, n: nat, kicker: bv32)
    ensures BelowFullHouse(h) && FlushSuit(h) < 4 && HighTops(StraightRanks(h)) == {} &&
            Rep(x, StraightRanks(h)) && n == SuitSize(h, FlushSuit(h)) && kicker == ClearLow(x, n - 5) ==>
            (5 << 28) | (Compress2(kicker) << 13) == Pack(Classify(h))
  {
    FlushStep(h, x, n, kicker);
    PackValueStep(h, 5, kicker);
  }

  lemma TripsExit(h: set<int>, t: bv32, x: bv32, k1: bv32, k2: bv32, k3: bv32)
    ensures Plain(h) && Rep(t, Trips(h)) && t != 0 && Rep(x, Ranks(h)) &&
            k1 == x ^ t && k2 == k1 & (k1 - 1) && k3 == k2 & (k2 - 1) ==>
            (3 << 28) | (Compress2(t) << 13) | Compress2(k3) == Pack(Classify(h))
  {
    TripsStep(h, t, x, k1, k2, k3);
    PackStep(h, 3, t, k3);
  }

  lemma ThreePairsExit(h: set<int>, t: bv32, evens: bv32, temp: bv32, x: bv32, k1: bv32, k2: bv32)
    ensures Plain(h) && Rep(t, Trips(h)) && t == 0 && Rep(evens, Pairs(h)) && evens != 0 &&
            temp == evens & (evens - 1) && temp & (temp - 1) != 0 &&
            Rep(x, Ranks(h)) && k1 == x ^ temp && k2 == k1 & (k1 - 1) ==>
            (2 << 28) | (Compress2(temp) << 13) | Compress2(k2) == Pack(Classify(h))
  {
    ThreePairsStep(h, t, evens, temp, x, k1, k2);
    PackStep(h, 2, temp, k2);
  }

  lemma PairsExit(h: set<int>, t: bv32, evens: bv32, temp: bv32, c: bv32,
                  x: bv32, k1: bv32, k2: bv32, k3: bv32)
    ensures Plain(h) && Rep(t, Trips(h)) && t == 0 && Rep(evens, Pairs(h)) && evens != 0 &&
            temp == evens & (evens - 1) && temp & (temp - 1) == 0 &&
            c == 1 + (if temp > 0 then 1 else 0) &&
            Rep(x, Ranks(h)) && k1 == x ^ evens && k2 == k1 & (k1 - 1) && k3 == k2 & (k2 - 1) ==>
            (c << 28) | (Compress2(evens) << 13) | Compress2(k3) == Pack(Classify(h))
  {
    PairsStep(h, t, evens, temp, c, x, k1, k2, k3);
    PackStep(h, c, evens, k3);
  }

  lemma HighCardExit(h: set<int>, t: bv32, evens: bv32, x: bv32, k1: bv32, k2: bv32)
    ensures Plain(h) && Rep(t, Trips(h)) && t == 0 && Rep(evens, Pairs(h)) && evens == 0 &&
            Rep(x, Ranks(h)) && k1 == x & (x - 1) && k2 == k1 & (k1 - 1) ==>
            0 | (0 << 13) | Compress2(k2) == Pack(Classify(h))
  {
    HighCardStep(h, t, evens, x, k1, k2);
    PackKickerStep(h, k2);
  }

  /* ------------------------------------------------------- the evaluator */

  /** E(h): the hand value of the cards A added to h[0] .. h[4]. The
      branches that return are the methods below it, one per exit. */
  method Evaluate(hand: array<bv32>, ghost h: set<int>) returns (r: bv32)
    requires hand.Length == 5 && Accumulates(hand[0], hand[1], hand[2], hand[3], hand[4], h)
    requires IsHand(h)
    ensures r == Pack(Classify(h))
  {
    var w0, w1, w2, w3, w4 := hand[0], hand[1], hand[2], hand[3], hand[4];
    var count := w0 + w1 + w2 + w4 - (w3 & ABOVE_SUITS);
    CountStep(w0, w1, w2, w3, w4, h, count);
    var done, evens, odds;
    done, r, evens, odds := FullHouseOrAbove(h, w3, count);
    if done {
      return;
    }
    r := FlushOrStraight(h, w0, w1, w2, w3, w4, count, evens, odds);
  }

  /** E, from the count word on: four of a kind and the two kinds of full
      house. When none of them applies (done is false), the tests that
      failed are the ones in the last postcondition. */
  method FullHouseOrAbove(ghost h: set<int>, w3: bv32, count: bv32)
    returns (done: bool, r: bv32, evens: bv32, odds: bv32)
    requires CountFacts(count, h) && Rep(w3 & ABOVE_SUITS, Ranks(h))
    ensures evens == RANKS & count && odds == ODDS & count
    ensures done ==> r == Pack(Classify(h))
    ensures !done ==> evens & (odds / 2) == 0 && odds & (odds - 1) == 0 && !(evens != 0 && odds != 0)
  {
    evens := 0x55555540 & count;
    odds := 0xAAAAAA80 & count;
    done := true;
    if evens & (odds / 2) != 0 {
      r := FourOfAKind(h, w3, count, evens, odds);
      return;
    }
    NoQuadsStep(h, count, evens, odds);
    if odds & (odds - 1) != 0 {
      r := TwoTrips(h, count, odds);
      return;
    } else if evens != 0 && odds != 0 {
      r := TripAndPairs(h, count, odds, evens);
      return;
    }
    done, r := false, 0;
  }

  /** Four of a kind: value is the quad rank, kicker the highest other rank. */
  method FourOfAKind(ghost h: set<int>, w3: bv32, count: bv32, evens: bv32, odds: bv32) returns (r: bv32)
    requires CountFacts(count, h) && Rep(w3 & ABOVE_SUITS, Ranks(h))
    requires evens == RANKS & count && odds == ODDS & count && evens & (odds / 2) != 0
    ensures r == Pack(Classify(h))
  {
    var value := evens & (odds / 2);
    var kicker := KeepHighest(w3 ^ value);
    QuadsExit(h, w3, count, evens, odds, value, kicker);
    return (7 << 28) | (Compress2(value) << 13) | Compress2(kicker);
  }

  /** A full house from two trips: the higher trip is the value, the lower
      one the kicker. */
  method TwoTrips(ghost h: set<int>, count: bv32, odds: bv32) returns (r: bv32)
    requires Quads(h) == {} && Rep(odds / 2, Trips(h)) && odds == ODDS & count
    requires odds & (odds - 1) != 0
    ensures r == Pack(Classify(h))
  {
    var value := odds & (odds - 1);
    ghost var u := value;
    value := value / 2;
    var kicker := (odds / 2) ^ value;
    TwoTripsExit(h, count, odds, odds / 2, u, value, kicker);
    return (6 << 28) | (Compress2(value) << 13) | Compress2(kicker);
  }

  /** A full house from one trip and a pair or two: the higher pair is the
      kicker. */
  method TripAndPairs(ghost h: set<int>, count: bv32, odds: bv32, evens: bv32) returns (r: bv32)
    requires Quads(h) == {} && Rep(odds / 2, Trips(h)) && odds == ODDS & count
    requires odds & (odds - 1) == 0 && odds != 0 && Rep(evens, Pairs(h)) && evens != 0
    ensures r == Pack(Classify(h))
  {
    var value := odds / 2;
    var temp := evens & (evens - 1);
    var kicker := if temp != 0 then temp else evens;
    TripsPairExit(h, count, odds, value, evens, temp, kicker);
    return (6 << 28) | (Compress2(value) << 13) | Compress2(kicker);
  }

  /** The flush tests, suit 3 (in h[0]) first, then suits 0, 1 and 2 (in h[1],
      h[2] and h[4]). Each test stores its counter in count, whether or not
      it succeeds. */
  method FlushScan(ghost h: set<int>, w0: bv32, w1: bv32, w2: bv32, w3: bv32, w4: bv32)
    returns (result: bv32, kicker: bv32, count: bv32)
    requires SlotHolds(w1, h, 0) && SlotHolds(w2, h, 1) && SlotHolds(w4, h, 2) && SlotHolds(w0, h, 3)
    requires IsHand(h) && |h| <= 7
    ensures Scanned(h, w3, result, kicker, count)
  {
    result, kicker := 0, w3;
    ShiftNone(w1);
    if (w0 >> 3) & 7 > 4 {
      count := (w0 >> 3) & 7;
      FoundScan(w0, h, 3, count, w3);
      kicker, result := w0, 5;
    } else if w1 & 7 > 4 {
      count := w1 & 7;
      FoundScan(w1, h, 0, count, w3);
      kicker, result := w1, 5;
    } else if (w2 >> 1) & 7 > 4 {
      count := (w2 >> 1) & 7;
      FoundScan(w2, h, 1, count, w3);
      kicker, result := w2, 5;
    } else if (w4 >> 2) & 7 > 4 {
      count := (w4 >> 2) & 7;
      FoundScan(w4, h, 2, count, w3);
      kicker, result := w4, 5;
    } else {
      count := (w4 >> 2) & 7;
      NoneScan(w0, w1, w2, w3, w4, h, count);
    }
  }

  /** E, continued below a full house: the flush scan, then the straight test
      on the flush suit's ranks, or on all of them. */
  method FlushOrStraight(ghost h: set<int>, w0: bv32, w1: bv32, w2: bv32, w3: bv32, w4: bv32,
                         count0: bv32, evens: bv32, odds: bv32) returns (r: bv32)
    requires SlotsHold(w0, w1, w2, w3, w4, h) && IsHand(h) && CountFacts(count0, h)
    requires evens == RANKS & count0 && odds == ODDS & count0
    requires evens & (odds / 2) == 0 && odds & (odds - 1) == 0 && !(evens != 0 && odds != 0)
    ensures r == Pack(Classify(h))
  {
    BelowPlanes(h, count0, evens, odds);
    var result, found, count := FlushScan(h, w0, w1, w2, w3, w4);
    var kicker := found & SLOT_RANKS;
    ghost var X := StraightRanks(h);
    ScanStep(h, w3, result, found, count, kicker);
    var value := kicker | ((kicker >> 26) & 16);
    ghost var v0 := value;
    value := value & (value * 4);
    ghost var v1 := value;
    value := value & (value * 4);
    ghost var v2 := value;
    value := value & (value * 4);
    ghost var v3 := value;
    value := value & (value * 4);
    RunStep(kicker, X, v0, v1, v2, v3, value);
    if value != 0 {
      ghost var v4 := value;
      result := result + 4;
      value := value & !(value / 4);
      StraightExit(h, v4, value, result);
      return (result << 28) | (Compress2(value) << 13);
    }
    r := FlushOrPairs(h, w3, result, found, kicker, count, evens, odds / 2);
  }

  /** E, continued: a flush keeps its five highest ranks; without one, kicker
      holds all the ranks of the hand. */
  method FlushOrPairs(ghost h: set<int>, w3: bv32, result: bv32, found: bv32, x: bv32, count: bv32,
                      evens: bv32, t: bv32) returns (r: bv32)
    requires IsHand(h) && |h| <= 7 && BelowFullHouse(h) && Scanned(h, w3, result, found, count)
    requires Rep(x, StraightRanks(h)) && HighTops(StraightRanks(h)) == {}
    requires Rep(t, Trips(h)) && Rep(evens, Pairs(h))
    ensures r == Pack(Classify(h))
  {
    if result != 0 {
      ghost var n := SuitSize(h, FlushSuit(h));
      var kicker, c := DropToFive(x, count, n);
      FlushExit(h, x, n, kicker);
      return (result << 28) | (Compress2(kicker) << 13);
    }
    NoFlushStep(h, x);
    r := PairsOrHighCard(h, x, evens, t);
  }

  /** E, continued: three of a kind, pairs and high card. */
  method PairsOrHighCard(ghost h: set<int>, x: bv32, evens: bv32, t: bv32) returns (r: bv32)
    requires Plain(h) && Rep(x, Ranks(h))
    requires Rep(t, Trips(h)) && Rep(evens, Pairs(h))
    ensures r == Pack(Classify(h))
  {
    var kicker := x;
    var value := t;
    if value != 0 {
      kicker := kicker ^ value;
      ghost var k1 := kicker;
      kicker := kicker & (kicker - 1);
      ghost var k2 := kicker;
      kicker := kicker & (kicker - 1);
      TripsExit(h, value, x, k1, k2, kicker);
      return (3 << 28) | (Compress2(value) << 13) | Compress2(kicker);
    } else if evens != 0 {
      var temp := evens & (evens - 1);
      if temp & (temp - 1) != 0 {
        kicker := kicker ^ temp;
        ghost var k1 := kicker;
        kicker := kicker & (kicker - 1);
        ThreePairsExit(h, value, evens, temp, x, k1, kicker);
        return (2 << 28) | (Compress2(temp) << 13) | Compress2(kicker);
      } else {
        kicker := kicker ^ evens;
        ghost var k1 := kicker;
        kicker := kicker & (kicker - 1);
        ghost var k2 := kicker;
        kicker := kicker & (kicker - 1);
        var c: bv32 := 1 + if temp > 0 then 1 else 0;
        PairsExit(h, value, evens, temp, c, x, k1, k2, kicker);
        return (c << 28) | (Compress2(evens) << 13) | Compress2(kicker);
      }
    }
    kicker := kicker & (kicker - 1);
    ghost var k1 := kicker;
    kicker := kicker & (kicker - 1);
    HighCardExit(h, value, evens, x, k1, kicker);
    return 0 | (0 << 13) | Compress2(kicker);
  }
}
