// E of ace_eval_base.c: the 32-bit evaluator with a single exit. It goes
// down the same decision table as the other 32-bit evaluators, but the flush
// scan and the straight rounds are loops, the branches below the straight
// test share one kicker trim at the end, and both masks of the result are
// made by the loop compress of that file. Every path is proved to end in
// Pack(Classify(h)).
//
// The pairs branch of the source reads temp, which nothing on that path has
// set; PairsAsWritten models that line as written and the lemma after it
// shows what a left-over non-zero temp does to a hand with one pair.
// PairRanks is the branch as its comments describe it (the test on i), and
// it is the one the evaluator uses.

module Base {

  import opened RankSets
  import opened Cards
  import opened Words32
  import opened Bits32
  import opened Ace32
  import opened Eval32
  import opened Loops32
  import opened HandValues
  import opened Hand32
  import opened Tail32
  import opened Steps32
  import opened Compress32
  import Decompress
  import Dense

  /* ------------------------------------------------------- the result */

  /** result << 28 | compress(value) << 13 | compress(kicker), with the
      loop compress of ace_eval_base.c (Gather, then / 8). */
  function Packed(t: bv32, value: bv32, kicker: bv32): bv32
  {
    (t << 28) | ((Gather(value) / 8) << 13) | (Gather(kicker) / 8)
  }

  /** Words that score the hand give, packed with the loop compress, the hand's value. */
  lemma PackedScores(h: set<int>, t: bv32, value: bv32, kicker: bv32)
    requires Scores(h, t, value, kicker)
    ensures Packed(t, value, kicker) == Pack(Classify(h))
  {
    var v := Classify(h);
    Decompress.PackScores(h, t, value, kicker);
    FieldsCompress(value, v.value);
    FieldsCompress(kicker, v.kicker);
  }

  /** On rank fields the loop compress and DECOMPRESS2 agree: both give the mask. */
  lemma FieldsCompress(x: bv32, S: set<int>)
    ensures Fields(x, S) && IsRankSet(S) ==> Gather(x) / 8 == Compress2(x)
  {
    if Fields(x, S) && IsRankSet(S) {
      GatherMask(x, S, Gather(x));
      Compress2Mask(x, S);
    }
  }

  lemma PackedStep(h: set<int>, t: bv32, value: bv32, kicker: bv32)
    ensures Scores(h, t, value, kicker) ==> Packed(t, value, kicker) == Pack(Classify(h))
  {
    if Scores(h, t, value, kicker) {
      PackedScores(h, t, value, kicker);
    }
  }

  /** What the common tail below the straight test leaves of the kicker: the
      ranks not in value, less the lowest two (the lowest one when i is set). */
  function Trim(kicker: bv32, value: bv32, i: bv32): bv32
  {
    ClearLow(kicker ^ value, if i == 0 then 2 else 1)
  }

  /** With kicker == value (straights and flushes) nothing is left. */
  lemma TrimSelf(v: bv32, i: bv32)
    ensures Trim(v, v, i) == 0
  {
    assert v ^ v == 0;
    assert ClearLow(0, 1) == 0;
    assert ClearLow(0, 2) == ClearLow(0, 1);
  }

  /* ------------------------------------------------------------ exits */

  lemma QuadsExit(h: set<int>, w3: bv32, count: bv32, evens: bv32, odds: bv32, value: bv32, kicker: bv32)
    ensures CountFacts(count, h) && Rep(w3 & ABOVE_SUITS, Ranks(h)) &&
            evens == RANKS & count && odds == ODDS & count && value == evens & (odds / 2) &&
            value != 0 && kicker == KeepTop(w3 ^ value) ==>
            Packed(7, value, kicker) == Pack(Classify(h))
  {
    QuadsStep(h, w3, count, evens, odds, value, kicker);
    PackedStep(h, 7, value, kicker);
  }

  lemma TwoTripsExit(h: set<int>, count: bv32, odds: bv32, u: bv32, value: bv32, kicker: bv32)
    ensures Quads(h) == {} && Rep(odds / 2, Trips(h)) && odds == ODDS & count &&
            u == odds & (odds - 1) && u != 0 && value == u / 2 && kicker == (odds / 2) ^ value ==>
            Packed(6, value, kicker) == Pack(Classify(h))
  {
    TwoTripsStep(h, count, odds, odds / 2, u, value, kicker);
    PackedStep(h, 6, value, kicker);
  }

  lemma TripsPairExit(h: set<int>, count: bv32, odds: bv32, evens: bv32, value: bv32, temp: bv32, kicker: bv32)
    ensures Quads(h) == {} && Rep(odds / 2, Trips(h)) && odds == ODDS & count && value == odds / 2 &&
            odds & (odds - 1) == 0 && odds != 0 &&
            Rep(evens, Pairs(h)) && evens != 0 && temp == evens & (evens - 1) &&
            kicker == (if temp != 0 then temp else evens) ==>
            Packed(6, value, kicker) == Pack(Classify(h))
  {
    HalfStep(count, odds, odds & (odds - 1));
    TripsPairStep(h, value, evens, temp, kicker);
    PackedStep(h, 6, value, kicker);
  }

  lemma StraightExit(h: set<int>, v4: bv32, value: bv32, result: bv32, i: bv32)
    ensures BelowFullHouse(h) && Rep(v4, Tops(StraightRanks(h))) && v4 != 0 && value == v4 & !(v4 / 4) &&
            result == (if FlushSuit(h) < 4 then 5 else 0) + 4 ==>
            Packed(result, value, Trim(value, value, i)) == Pack(Classify(h))
  {
    StraightStep(h, v4, value, result);
    TrimSelf(value, i);
    PackedStep(h, result, value, 0);
  }

  lemma FlushExit(h: set<int>, x: bv32, n: nat, kicker: bv32, i: bv32)
    ensures BelowFullHouse(h) && FlushSuit(h) < 4 && HighTops(StraightRanks(h)) == {} &&
            Rep(x, StraightRanks(h)) && n == SuitSize(h, FlushSuit(h)) && kicker == ClearLow(x, n - 5) ==>
            Packed(5, kicker, Trim(kicker, kicker, i)) == Pack(Classify(h))
  {
    FlushStep(h, x, n, kicker);
    TrimSelf(kicker, i);
    PackedStep(h, 5, kicker, 0);
  }

  lemma TripsExit(h: set<int>, t: bv32, x: bv32)
    ensures Plain(h) && Rep(t, Trips(h)) && t != 0 && Rep(x, Ranks(h)) ==>
            Packed(3, t, Trim(x, t, 0)) == Pack(Classify(h))
  {
    if Plain(h) && Rep(t, Trips(h)) && t != 0 && Rep(x, Ranks(h)) {
      var k1 := x ^ t;
      var k2 := k1 & (k1 - 1);
      ClearTwo(k1, k2, k2 & (k2 - 1));
      TripsScores(h, t, x, k1, k2, k2 & (k2 - 1));
      PackedScores(h, 3, t, k2 & (k2 - 1));
    }
  }

  lemma ThreePairsExit(h: set<int>, t: bv32, evens: bv32, odds: bv32, i: bv32, x: bv32)
    ensures Plain(h) && Rep(t, Trips(h)) && t == 0 && Rep(evens, Pairs(h)) && evens != 0 &&
            odds == evens & (evens - 1) && i == odds & (odds - 1) && i != 0 && Rep(x, Ranks(h)) ==>
            Packed(2, odds, Trim(x, odds, i)) == Pack(Classify(h))
  {
    if Plain(h) && Rep(t, Trips(h)) && t == 0 && Rep(evens, Pairs(h)) && evens != 0 &&
       odds == evens & (evens - 1) && i == odds & (odds - 1) && i != 0 && Rep(x, Ranks(h)) {
      RepZero(t, Trips(h));
      var k1 := x ^ odds;
      var k2 := k1 & (k1 - 1);
      ClearOne(k1, k2, k2 & (k2 - 0));
      ThreePairsScores(h, evens, odds, x, k1, k2);
      PackedScores(h, 2, odds, k2);
    }
  }

  lemma PairsExit(h: set<int>, t: bv32, evens: bv32, odds: bv32, c: bv32, x: bv32)
    ensures Plain(h) && Rep(t, Trips(h)) && t == 0 && Rep(evens, Pairs(h)) && evens != 0 &&
            odds == evens & (evens - 1) && odds & (odds - 1) == 0 &&
            c == 1 + (if odds > 0 then 1 else 0) && Rep(x, Ranks(h)) ==>
            Packed(c, evens, Trim(x, evens, 0)) == Pack(Classify(h))
  {
    if Plain(h) && Rep(t, Trips(h)) && t == 0 && Rep(evens, Pairs(h)) && evens != 0 &&
       odds == evens & (evens - 1) && odds & (odds - 1) == 0 &&
       c == 1 + (if odds > 0 then 1 else 0) && Rep(x, Ranks(h)) {
      RepZero(t, Trips(h));
      var k1 := x ^ evens;
      var k2 := k1 & (k1 - 1);
      ClearTwo(k1, k2, k2 & (k2 - 1));
      PairsScores(h, evens, odds, c, x, k1, k2, k2 & (k2 - 1));
      PackedScores(h, c, evens, k2 & (k2 - 1));
    }
  }

  lemma HighCardExit(h: set<int>, t: bv32, evens: bv32, x: bv32)
    ensures Plain(h) && Rep(t, Trips(h)) && t == 0 && Rep(evens, Pairs(h)) && evens == 0 && Rep(x, Ranks(h)) ==>
            Packed(0, 0, Trim(x, 0, 0)) == Pack(Classify(h))
  {
    if Plain(h) && Rep(t, Trips(h)) && t == 0 && Rep(evens, Pairs(h)) && evens == 0 && Rep(x, Ranks(h)) {
      RepZero(t, Trips(h));
      RepZero(evens, Pairs(h));
      var k1 := x & (x - 1);
      assert x ^ 0 == x;
      ClearTwo(x, k1, k1 & (k1 - 1));
      HighCardScores(h, x, k1, k1 & (k1 - 1));
      PackedScores(h, 0, 0, k1 & (k1 - 1));
    }
  }

  /* ------------------------------------------------------- the evaluator */

  /** E(h): the hand value of the cards A added to h[0] .. h[4]. The upper
      branches and the big else branch are the methods below it; both masks
      are compressed at the one exit. */
  method Evaluate(hand: array<bv32>, ghost h: set<int>) returns (r: bv32)
    requires hand.Length == 5 && Accumulates(hand[0], hand[1], hand[2], hand[3], hand[4], h)
    requires IsHand(h)
    ensures r == Pack(Classify(h))
  {
    var w0, w1, w2, w3, w4 := hand[0], hand[1], hand[2], hand[3], hand[4];
    var count := w0 + w1 + w2 + w4 - (w3 & ABOVE_SUITS);
    CountStep(w0, w1, w2, w3, w4, h, count);
    var done, result, value, kicker, evens, odds := FullHouseOrAbove(h, w3, count);
    if !done {
      result, value, kicker := FlushOrBelow(hand, h, w0, w1, w2, w3, w4, count, evens, odds);
    }
    r := Finish(result, value, kicker);
  }

  /** value = compress(value); C = compress(kicker); return result << 28 | value << 13 | C; */
  method Finish(result: bv32, value0: bv32, kicker: bv32) returns (r: bv32)
    ensures r == Packed(result, value0, kicker)
  {
    var value := Compress(value0);
    var c := Compress(kicker);
    r := (result << 28) | (value << 13) | c;
  }

  /** The count word's planes, then four of a kind and the two kinds of full
      house. When none applies (done is false) the tests that failed are in
      the last postcondition. */
  method FullHouseOrAbove(ghost h: set<int>, w3: bv32, count: bv32)
    returns (done: bool, result: bv32, value: bv32, kicker: bv32, evens: bv32, odds: bv32)
    requires CountFacts(count, h) && Rep(w3 & ABOVE_SUITS, Ranks(h))
    ensures evens == RANKS & count && odds == ODDS & count
    ensures done ==> Packed(result, value, kicker) == Pack(Classify(h))
    ensures !done ==> evens & (odds / 2) == 0 && odds & (odds - 1) == 0 && !(evens != 0 && odds != 0)
  {
    evens := 0x55555540 & count;
    odds := 0xAAAAAA80 & count;
    done := true;
    value := evens & (odds / 2);
    if value != 0 {
      result, kicker := FourOfAKind(h, w3, count, evens, odds, value);
      return;
    }
    NoQuadsStep(h, count, evens, odds);
    value := odds & (odds - 1);
    if value != 0 {
      result, value, kicker := TwoTrips(h, count, odds, value);
      return;
    } else if evens != 0 && odds != 0 {
      result, value, kicker := TripAndPairs(h, count, odds, evens);
      return;
    }
    done, result, kicker := false, 0, w3;
  }

  /** Four of a kind: the quad rank, and the highest other rank left by the
      kicker loop. */
  method FourOfAKind(ghost h: set<int>, w3: bv32, count: bv32, evens: bv32, odds: bv32, value: bv32)
    returns (result: bv32, kicker: bv32)
    requires CountFacts(count, h) && Rep(w3 & ABOVE_SUITS, Ranks(h))
    requires evens == RANKS & count && odds == ODDS & count && value == evens & (odds / 2) && value != 0
    ensures Packed(result, value, kicker) == Pack(Classify(h))
  {
    result := 7;
    kicker := KeepHighest(w3 ^ value);
    QuadsExit(h, w3, count, evens, odds, value, kicker);
  }

  /** Two trips: the higher is the value, the lower the kicker. */
  method TwoTrips(ghost h: set<int>, count: bv32, odds: bv32, u: bv32)
    returns (result: bv32, value: bv32, kicker: bv32)
    requires Quads(h) == {} && Rep(odds / 2, Trips(h)) && odds == ODDS & count
    requires u == odds & (odds - 1) && u != 0
    ensures Packed(result, value, kicker) == Pack(Classify(h))
  {
    result := 6;
    value := u / 2;
    kicker := (odds / 2) ^ value;
    TwoTripsExit(h, count, odds, u, value, kicker);
  }

  /** One trip and a pair or two: the higher pair is the kicker. */
  method TripAndPairs(ghost h: set<int>, count: bv32, odds: bv32, evens: bv32)
    returns (result: bv32, value: bv32, kicker: bv32)
    requires Quads(h) == {} && Rep(odds / 2, Trips(h)) && odds == ODDS & count
    requires odds & (odds - 1) == 0 && odds != 0 && Rep(evens, Pairs(h)) && evens != 0
    ensures Packed(result, value, kicker) == Pack(Classify(h))
  {
    result := 6;
    value := odds / 2;
    var temp := evens & (evens - 1);
    kicker := if temp != 0 then temp else evens;
    TripsPairExit(h, count, odds, evens, value, temp, kicker);
  }

  /** The flush loop: for i = 0 .. 3 the counter of suit i sits at bit i of
      h[(1 << i) & 7]; the first suit with five cards or more stops the loop
      with result 5 and kicker its slot (the loop is the whole method, so the
      break is a return). Without one, kicker stays h[3]. */
  method FlushLoop(hand: array<bv32>, ghost h: set<int>, w0: bv32, w1: bv32, w2: bv32, w3: bv32, w4: bv32)
    returns (result: bv32, kicker: bv32, count: bv32)
    requires hand.Length == 5 && hand[0] == w0 && hand[1] == w1 && hand[2] == w2 && hand[3] == w3 && hand[4] == w4
    requires SlotHolds(w1, h, 0) && SlotHolds(w2, h, 1) && SlotHolds(w4, h, 2) && SlotHolds(w0, h, 3)
    requires IsHand(h) && |h| <= 7
    ensures Scanned(h, w3, result, kicker, count)
  {
    result, kicker, count := 0, hand[3], 0;
    var i := 0;
    while i < 4
      invariant 0 <= i <= 4 && result == 0 && kicker == w3
      invariant forall j :: 0 <= j < i ==> SuitSize(h, j) < 5
    {
      var slot;
      SuitWordHolds(w0, w1, w2, w4, h, i);
      slot, count := SuitCounter(hand, h, w0, w1, w2, w3, w4, i);
      if count >= 5 {
        kicker := slot;
        result := 5;
        break;
      }
      i := i + 1;
    }
    if result == 0 {
      FlushNone(h);
    }
  }

  /** One round of the flush loop: the word at h[(1 << i) & 7] and the
      counter of suit i in it, (word >> i) & 7. */
  method SuitCounter(hand: array<bv32>, ghost h: set<int>, w0: bv32, w1: bv32, w2: bv32, w3: bv32, w4: bv32, i: int)
    returns (slot: bv32, count: bv32)
    requires hand.Length == 5 && hand[0] == w0 && hand[1] == w1 && hand[2] == w2 && hand[3] == w3 && hand[4] == w4
    requires 0 <= i < 4 && SlotHolds(SuitWord(w0, w1, w2, w4, i), h, i) && IsHand(h) && |h| <= 7
    ensures count >= 5 ==> Scanned(h, w3, 5, slot, count)
    ensures count < 5 ==> SuitSize(h, i) < 5
  {
    var idx := (((1 as bv32) << i) & 7) as int;
    IndexSlot(i);
    slot := hand[idx];
    SlotRead(hand, w0, w1, w2, w3, w4, i, idx, slot);
    count := slot >> i;
    count := count & 7;
    FoundScan(slot, h, i, count, w3);
    ShortSuit(slot, h, i, count);
  }

  /** The word that holds suit s: h[1], h[2], h[4] or h[0]. */
  function SuitWord(w0: bv32, w1: bv32, w2: bv32, w4: bv32, s: int): bv32
  {
    if s == 0 then w1 else if s == 1 then w2 else if s == 2 then w4 else w0
  }

  /** h[SlotOf(s)] is that word. */
  lemma SlotRead(hand: array<bv32>, w0: bv32, w1: bv32, w2: bv32, w3: bv32, w4: bv32, s: int, index: int, x: bv32)
    ensures hand.Length == 5 && hand[0] == w0 && hand[1] == w1 && hand[2] == w2 && hand[3] == w3 && hand[4] == w4 &&
            0 <= s < 4 && index == SlotOf(s) && x == hand[index] ==>
            x == SuitWord(w0, w1, w2, w4, s)
  {
  }

  lemma SuitWordHolds(w0: bv32, w1: bv32, w2: bv32, w4: bv32, h: set<int>, s: int)
    ensures SlotHolds(w1, h, 0) && SlotHolds(w2, h, 1) && SlotHolds(w4, h, 2) && SlotHolds(w0, h, 3) && 0 <= s < 4 ==>
            SlotHolds(SuitWord(w0, w1, w2, w4, s), h, s)
  {
  }

  /** for (i = 0; i < 4; i++) value &= value * 4; starting from the ranks X
      with the ace copied below the deuce: what is left marks the tops of
      the runs of five in X, and it is zero exactly when X has no straight. */
  method StraightRounds(ghost X: set<int>, v0: bv32) returns (value: bv32, i: bv32)
    requires Rep(v0, Run(Extended(X), 0)) && IsRankSet(X)
    ensures Rep(value, Tops(X)) && (value == 0 <==> HighTops(X) == {}) && i == 4
  {
    value := v0;
    i := 0;
    while i < 4
      invariant i <= 4 && Rep(value, Run(Extended(X), i as int))
    {
      RunRound(value, Extended(X), i as int, value & (value * 4));
      value := value & (value * 4);
      i := i + 1;
    }
    RunIsTops(value, X);
    StraightTest(value, X);
  }

  /** The big else branch of E: the flush loop, then the straight test and
      the lower branches, then the kicker trim they share. */
  method FlushOrBelow(hand: array<bv32>, ghost h: set<int>, w0: bv32, w1: bv32, w2: bv32, w3: bv32, w4: bv32,
                      count0: bv32, evens: bv32, odds: bv32)
    returns (result: bv32, value: bv32, kicker: bv32)
    requires hand.Length == 5 && hand[0] == w0 && hand[1] == w1 && hand[2] == w2 && hand[3] == w3 && hand[4] == w4
    requires SlotsHold(w0, w1, w2, w3, w4, h)
    requires IsHand(h) && CountFacts(count0, h)
    requires evens == RANKS & count0 && odds == ODDS & count0
    requires evens & (odds / 2) == 0 && odds & (odds - 1) == 0 && !(evens != 0 && odds != 0)
    ensures Packed(result, value, kicker) == Pack(Classify(h))
  {
    Decompress.BelowPlanes(h, count0, evens, odds);
    var found, count, i;
    result, found, count := FlushLoop(hand, h, w0, w1, w2, w3, w4);
    result, value, kicker, i := StraightOrBelow(h, w3, result, found, count, evens, odds);
    kicker := TrimKicker(kicker, value, i);
  }

  /** kicker ^= value; kicker &= kicker - 1; kicker &= kicker - (i == 0);
      the value's ranks go, then the lowest one or two of the others. */
  method TrimKicker(kicker0: bv32, value: bv32, i: bv32) returns (kicker: bv32)
    ensures kicker == Trim(kicker0, value, i)
  {
    kicker := kicker0 ^ value;
    ghost var k1 := kicker;
    kicker := kicker & (kicker - 1);
    ghost var k2 := kicker;
    kicker := kicker & (kicker - (if i == 0 then 1 else 0));
    TrimSteps(kicker0, value, i, k1, k2, kicker);
  }

  lemma TrimSteps(kicker0: bv32, value: bv32, i: bv32, k1: bv32, k2: bv32, k3: bv32)
    requires k1 == kicker0 ^ value && k2 == k1 & (k1 - 1) && k3 == k2 & (k2 - (if i == 0 then 1 else 0))
    ensures k3 == Trim(kicker0, value, i)
  {
    if i == 0 {
      ClearTwo(k1, k2, k3);
    } else {
      ClearOne(k1, k2, k3);
    }
  }

  lemma ClearTwo(k1: bv32, k2: bv32, k3: bv32)
    requires k2 == k1 & (k1 - 1) && k3 == k2 & (k2 - 1)
    ensures k3 == ClearLow(k1, 2)
  {
  }

  lemma ClearOne(k1: bv32, k2: bv32, k3: bv32)
    requires k2 == k1 & (k1 - 1) && k3 == k2 & (k2 - 0)
    ensures k3 == ClearLow(k1, 1)
  {
  }

  /** kicker &= -64 on the flush suit's slot (or h[3]), the straight rounds on
      those ranks, then the branches below the straight test. */
  method StraightOrBelow(ghost h: set<int>, w3: bv32, result0: bv32, found: bv32, count: bv32,
                         evens: bv32, odds: bv32) returns (result: bv32, value: bv32, kicker: bv32, i: bv32)
    requires IsHand(h) && |h| <= 7 && BelowFullHouse(h) && Scanned(h, w3, result0, found, count)
    requires Rep(w3 & ABOVE_SUITS, Ranks(h)) && Rep(odds / 2, Trips(h)) && Rep(evens, Pairs(h))
    ensures Packed(result, value, Trim(kicker, value, i)) == Pack(Classify(h))
  {
    result := result0;
    kicker := found & SLOT_RANKS;
    ScanStep(h, w3, result, found, count, kicker);
    value := kicker | ((kicker >> 26) & 16);
    AceRun(kicker, StraightRanks(h), value);
    value, i := StraightRounds(StraightRanks(h), value);
    if value != 0 {
      ghost var v4 := value;
      result := result + 4;
      value := value & !(value / 4);
      kicker := value;
      StraightExit(h, v4, value, result, i);
    } else {
      result, value, kicker, i := FlushOrPairs(h, w3, result, found, kicker, count, evens, odds);
    }
  }

  /** Below the straight test: the flush trim (with i = result = 5), or,
      without a flush, three of a kind, pairs and high card (with i = 0 but
      for three pairs). The words returned give the hand value once the
      common trim has run. */
  method FlushOrPairs(ghost h: set<int>, w3: bv32, result0: bv32, found: bv32, x: bv32, count0: bv32,
                      evens: bv32, odds: bv32) returns (result: bv32, value: bv32, kicker: bv32, i: bv32)
    requires IsHand(h) && |h| <= 7 && BelowFullHouse(h) && Scanned(h, w3, result0, found, count0)
    requires Rep(x, StraightRanks(h)) && HighTops(StraightRanks(h)) == {}
    requires Rep(odds / 2, Trips(h)) && Rep(evens, Pairs(h))
    ensures Packed(result, value, Trim(kicker, value, i)) == Pack(Classify(h))
  {
    result, kicker := result0, x;
    i := result;
    if i != 0 {
      ghost var n := SuitSize(h, FlushSuit(h));
      var count;
      kicker, count := DropToFive(kicker, count0, n);
      value := kicker;
      FlushExit(h, x, n, kicker, i);
      return;
    }
    NoFlushStep(h, x);
    result, value, i := PairsOrHighCard(h, x, evens, odds);
  }

  /** Three of a kind, pairs and high card. */
  method PairsOrHighCard(ghost h: set<int>, x: bv32, evens: bv32, odds: bv32)
    returns (result: bv32, value: bv32, i: bv32)
    requires Plain(h) && Rep(x, Ranks(h))
    requires Rep(odds / 2, Trips(h)) && Rep(evens, Pairs(h))
    ensures Packed(result, value, Trim(x, value, i)) == Pack(Classify(h))
  {
    result, i := 0, 0;
    value := odds / 2;
    if value != 0 {
      result := 3;
      TripsExit(h, value, x);
    } else if evens != 0 {
      result, value, i := PairRanks(h, x, evens);
    } else {
      HighCardExit(h, value, evens, x);
    }
  }

  /** One, two or three pairs, with the test on i that the comments of the
      source describe: with three pairs (i != 0) the two higher ones are the
      value and the trim clears one rank, otherwise all the pairs are the
      value and the trim clears two. */
  method PairRanks(ghost h: set<int>, x: bv32, evens: bv32) returns (result: bv32, value: bv32, i: bv32)
    requires Plain(h) && Trips(h) == {} && Rep(x, Ranks(h)) && Rep(evens, Pairs(h)) && evens != 0
    ensures Packed(result, value, Trim(x, value, i)) == Pack(Classify(h))
  {
    var odds := evens & (evens - 1);
    i := odds & (odds - 1);
    value := if i != 0 then odds else evens;
    result := 1 + if odds > 0 then 1 else 0;
    EmptyTrips(h);
    if i != 0 {
      ThreePairsExit(h, 0, evens, odds, i, x);
    } else {
      PairsExit(h, 0, evens, odds, result, x);
    }
  }

  lemma EmptyTrips(h: set<int>)
    requires Trips(h) == {}
    ensures Rep(0, Trips(h))
  {
  }

  /* ----------------------------------------------- the pairs line as written */

  /** odds = evens & evens - 1; i = odds & odds - 1; value = temp ? odds : evens;
      result = 1 + (odds > 0); with temp whatever the word holds on entry.
      With one pair and a non-zero temp the value word is empty. */
  function PairsAsWritten(evens: bv32, temp: bv32): (r: (bv32, bv32, bv32))
    ensures evens & (evens - 1) == 0 && temp != 0 ==> r.1 == 0
  {
    var odds := evens & (evens - 1);
    var i := odds & (odds - 1);
    (1 + (if odds > 0 then 1 else 0), if temp != 0 then odds else evens, i)
  }

  /** With one pair and a left-over non-zero temp, the line as written packs
      an empty value field, whatever the kicker: the pair is lost and the
      result is not the hand's value. */
  lemma OnePairLost(h: set<int>, evens: bv32, temp: bv32, kicker: bv32)
    requires Plain(h) && Trips(h) == {} && Rep(evens, Pairs(h)) && evens != 0
    requires evens & (evens - 1) == 0 && temp != 0
    ensures Packed(PairsAsWritten(evens, temp).0, PairsAsWritten(evens, temp).1, kicker) != Pack(Classify(h))
  {
    var r := PairsAsWritten(evens, temp);
    PairsWords(evens, Pairs(h), evens & (evens - 1));
    ClassifyPairs(h);
    var v := Classify(h);
    assert v.value == Pairs(h);
    Dense.MaskBound(v.value);
    Dense.MaskBound(v.kicker);
    GatherBound(kicker);
    assert Gather(0) == 0;
    ValueField(r.0, 0, Gather(kicker) / 8);
    CategoryCast(v.category);
    ValueField(v.category as bv32, Dense.Mask(v.value), Dense.Mask(v.kicker));
  }

  /** The category word of the line as written is the hand's category
      whatever temp holds: it reads only evens and odds, and with one, two
      or three pairs it is ONE_PAIR or TWO_PAIR as the decision table says.
      Only the value word depends on temp. */
  lemma PairsCategoryKept(h: set<int>, evens: bv32, temp: bv32)
    requires Plain(h) && Trips(h) == {} && Rep(evens, Pairs(h)) && evens != 0
    ensures PairsAsWritten(evens, temp).0 == Classify(h).category as bv32
  {
    var odds := evens & (evens - 1);
    if odds & (odds - 1) != 0 {
      ThreePairsWords(evens, Pairs(h), odds);
      ClassifyThreePairs(h);
    } else {
      PairsWords(evens, Pairs(h), odds);
      ClassifyPairs(h);
    }
    CategoryCast(Classify(h).category);
  }

  /** The loop compress fits in 13 bits. */
  lemma GatherBound(a: bv32)
    ensures Gather(a) / 8 < 0x2000
  {
    GatherCompact(a);
  }

  /** The value field of a packed result: bits 13 .. 25. */
  lemma ValueField(t: bv32, a: bv32, b: bv32)
    requires a < 0x2000 && b < 0x2000
    ensures (((t << 28) | (a << 13) | b) >> 13) & 0x1FFF == a
  {
  }
}
