// evaluate of 64bit/eval.c. The four suit slots are added into one count word
// whose nibble at each rank is the number of suits holding that rank; its bit
// planes give the quads, the trips and the pairs. The rest of the evaluation
// is the decision table of HandValues, each branch computed with the bit
// tricks of Words64 and Eval64.

module Evaluate64 {

  import opened RankSets
  import opened Cards
  import opened Words64
  import opened Eval64
  import opened HandValues
  import Dense

  /** Bit 2 of every rank nibble: a rank held four times. */
  const QUADS: bv64 := 0x0444444444444400
  /** Bit 1 of every rank nibble: a rank held two or three times. */
  const PAIRS: bv64 := 0x0222222222222200

  /** set = count & pair >> 1, with pair = count & PAIRS: the ranks held three times. */
  function SetsOf(count: bv64): bv64
  {
    count & ((count & PAIRS) >> 1)
  }

  /** pair ^= set << 1; pair >>= 1: the ranks held exactly twice. */
  function PairOf(count: bv64): bv64
  {
    ((count & PAIRS) ^ (SetsOf(count) << 1)) >> 1
  }

  /* ------------------------------------------------------------ the planes */

  /** Rep on the positions -1 .. 5 ... */
  predicate RepLo(x: bv64, S: set<int>)
  {
    (x & 0x10 != 0 <==> -1 in S) &&
    (x & 0x100 != 0 <==> 0 in S) &&
    (x & 0x1000 != 0 <==> 1 in S) &&
    (x & 0x10000 != 0 <==> 2 in S) &&
    (x & 0x100000 != 0 <==> 3 in S) &&
    (x & 0x1000000 != 0 <==> 4 in S) &&
    (x & 0x10000000 != 0 <==> 5 in S)
  }

  /** ... and on the positions 6 .. 12. */
  predicate RepHi(x: bv64, S: set<int>)
  {
    (x & 0x100000000 != 0 <==> 6 in S) &&
    (x & 0x1000000000 != 0 <==> 7 in S) &&
    (x & 0x10000000000 != 0 <==> 8 in S) &&
    (x & 0x100000000000 != 0 <==> 9 in S) &&
    (x & 0x1000000000000 != 0 <==> 10 in S) &&
    (x & 0x10000000000000 != 0 <==> 11 in S) &&
    (x & 0x100000000000000 != 0 <==> 12 in S)
  }

  lemma Glue(x: bv64, S: set<int>)
    requires RepLo(x, S) && RepHi(x, S) && IsPosSet(S) && x & !POSITIONS == 0
    ensures Rep(x, S)
  {
  }

  /** The four suit slots (slot 1, 2, 4, 0 for suits 0, 1, 2, 3) as rank words. */
  ghost predicate Suits(x0: bv64, x1: bv64, x2: bv64, x4: bv64,
                        A: set<int>, B: set<int>, C: set<int>, D: set<int>)
  {
    Rep(x1 & -16, A) && Rep(x2 & -16, B) && Rep(x4 & -16, C) && Rep(x0 & -16, D) &&
    IsRankSet(A) && IsRankSet(B) && IsRankSet(C) && IsRankSet(D)
  }

  /** No counter can carry into the ranks: each slot has at most 15 in its
      low byte, so the sum of the four stays below the first rank bit. */
  lemma QuadPlane(x0: bv64, x1: bv64, x2: bv64, x4: bv64,
                  A: set<int>, B: set<int>, C: set<int>, D: set<int>)
    requires Suits(x0, x1, x2, x4, A, B, C, D)
    ensures Rep(((x0 + x1 + x2 + x4) & QUADS) >> 2, A * B * C * D)
  {
  }

  lemma TripLo(x0: bv64, x1: bv64, x2: bv64, x4: bv64,
               A: set<int>, B: set<int>, C: set<int>, D: set<int>)
    requires Suits(x0, x1, x2, x4, A, B, C, D)
    ensures RepLo(SetsOf(x0 + x1 + x2 + x4), AtLeastThree(A, B, C, D) - A * B * C * D)
  {
  }

  lemma TripHi(x0: bv64, x1: bv64, x2: bv64, x4: bv64,
               A: set<int>, B: set<int>, C: set<int>, D: set<int>)
    requires Suits(x0, x1, x2, x4, A, B, C, D)
    ensures RepHi(SetsOf(x0 + x1 + x2 + x4), AtLeastThree(A, B, C, D) - A * B * C * D)
  {
  }

  lemma SetsMask(count: bv64)
    ensures SetsOf(count) & !POSITIONS == 0
  {
  }

  lemma TripPlane(x0: bv64, x1: bv64, x2: bv64, x4: bv64,
                  A: set<int>, B: set<int>, C: set<int>, D: set<int>)
    requires Suits(x0, x1, x2, x4, A, B, C, D)
    ensures Rep(SetsOf(x0 + x1 + x2 + x4), AtLeastThree(A, B, C, D) - A * B * C * D)
  {
    TripLo(x0, x1, x2, x4, A, B, C, D);
    TripHi(x0, x1, x2, x4, A, B, C, D);
    SetsMask(x0 + x1 + x2 + x4);
    Glue(SetsOf(x0 + x1 + x2 + x4), AtLeastThree(A, B, C, D) - A * B * C * D);
  }

  lemma PairLo(x0: bv64, x1: bv64, x2: bv64, x4: bv64,
               A: set<int>, B: set<int>, C: set<int>, D: set<int>)
    requires Suits(x0, x1, x2, x4, A, B, C, D)
    ensures RepLo(PairOf(x0 + x1 + x2 + x4), AtLeastTwo(A, B, C, D) - AtLeastThree(A, B, C, D))
  {
  }

  lemma PairHi(x0: bv64, x1: bv64, x2: bv64, x4: bv64,
               A: set<int>, B: set<int>, C: set<int>, D: set<int>)
    requires Suits(x0, x1, x2, x4, A, B, C, D)
    ensures RepHi(PairOf(x0 + x1 + x2 + x4), AtLeastTwo(A, B, C, D) - AtLeastThree(A, B, C, D))
  {
  }

  lemma PairMask(count: bv64)
    ensures PairOf(count) & !POSITIONS == 0
  {
  }

  lemma PairPlane(x0: bv64, x1: bv64, x2: bv64, x4: bv64,
                  A: set<int>, B: set<int>, C: set<int>, D: set<int>)
    requires Suits(x0, x1, x2, x4, A, B, C, D)
    ensures Rep(PairOf(x0 + x1 + x2 + x4), AtLeastTwo(A, B, C, D) - AtLeastThree(A, B, C, D))
  {
    PairLo(x0, x1, x2, x4, A, B, C, D);
    PairHi(x0, x1, x2, x4, A, B, C, D);
    PairMask(x0 + x1 + x2 + x4);
    Glue(PairOf(x0 + x1 + x2 + x4), AtLeastTwo(A, B, C, D) - AtLeastThree(A, B, C, D));
  }

  /** The accumulator's slots are the suits' rank words. */
  lemma AccumulatedSuits(w0: bv64, w1: bv64, w2: bv64, w3: bv64, w4: bv64, h: set<int>)
    requires Accumulates(w0, w1, w2, w3, w4, h)
    ensures Suits(w0, w1, w2, w4, SuitRanks(h, 0), SuitRanks(h, 1), SuitRanks(h, 2), SuitRanks(h, 3))
  {
  }

  /** The count word's bit planes, on the hand: quads ... */
  lemma QuadsWord(w0: bv64, w1: bv64, w2: bv64, w3: bv64, w4: bv64, h: set<int>)
    requires Accumulates(w0, w1, w2, w3, w4, h)
    ensures Rep(((w0 + w1 + w2 + w4) & QUADS) >> 2, Quads(h))
  {
    AccumulatedSuits(w0, w1, w2, w3, w4, h);
    QuadPlane(w0, w1, w2, w4, SuitRanks(h, 0), SuitRanks(h, 1), SuitRanks(h, 2), SuitRanks(h, 3));
    QuadsBySuit(h);
  }

  /** ... trips ... */
  lemma TripsWord(w0: bv64, w1: bv64, w2: bv64, w3: bv64, w4: bv64, h: set<int>)
    requires Accumulates(w0, w1, w2, w3, w4, h)
    ensures Rep(SetsOf(w0 + w1 + w2 + w4), Trips(h))
  {
    AccumulatedSuits(w0, w1, w2, w3, w4, h);
    TripPlane(w0, w1, w2, w4, SuitRanks(h, 0), SuitRanks(h, 1), SuitRanks(h, 2), SuitRanks(h, 3));
    TripsBySuit(h);
  }

  /** ... and pairs. */
  lemma PairsWord(w0: bv64, w1: bv64, w2: bv64, w3: bv64, w4: bv64, h: set<int>)
    requires Accumulates(w0, w1, w2, w3, w4, h)
    ensures Rep(PairOf(w0 + w1 + w2 + w4), Pairs(h))
  {
    AccumulatedSuits(w0, w1, w2, w3, w4, h);
    PairPlane(w0, w1, w2, w4, SuitRanks(h, 0), SuitRanks(h, 1), SuitRanks(h, 2), SuitRanks(h, 3));
    PairsBySuit(h);
  }

  /* ------------------------------------------------------ four of a kind */

  /** The quads test (count & QUADS) is the test after aligning as well. */
  lemma QuadsShift(count: bv64)
    ensures (count & QUADS != 0) == ((count & QUADS) >> 2 != 0)
  {
  }

  /** The ranks of the hand in slot 3. */
  lemma AccumulatedRanks(w0: bv64, w1: bv64, w2: bv64, w3: bv64, w4: bv64, h: set<int>)
    requires Accumulates(w0, w1, w2, w3, w4, h)
    ensures Rep(w3 & -16, Ranks(h))
  {
  }

  lemma NoQuads(w0: bv64, w1: bv64, w2: bv64, w3: bv64, w4: bv64, h: set<int>)
    requires Accumulates(w0, w1, w2, w3, w4, h) && (w0 + w1 + w2 + w4) & QUADS == 0
    ensures Quads(h) == {}
  {
    QuadsWord(w0, w1, w2, w3, w4, h);
    QuadsShift(w0 + w1 + w2 + w4);
    RepZero(((w0 + w1 + w2 + w4) & QUADS) >> 2, Quads(h));
  }

  /** Exclusive or with a word of no low bits leaves the low nibble alone. */
  lemma XorLow(w: bv64, v: bv64)
    requires v & 0xF == 0
    ensures w ^ v == ((w & -16) ^ v) | (w & 0xF)
  {
  }

  lemma QuadKickerAt(w3: bv64, v: bv64, R: set<int>, Q: set<int>)
    requires Rep((w3 & -16) ^ v, R - Q) && IsRankSet(R) && w3 ^ v == ((w3 & -16) ^ v) | (w3 & 0xF)
    ensures Compress(KeepTop(w3 ^ v)) == Dense.Mask(Top(R - Q))
  {
    KeepTopRep((w3 & -16) ^ v, R - Q, w3 & 0xF);
  }

  lemma XorRanks(w3: bv64, v: bv64, R: set<int>, Q: set<int>)
    requires Rep(w3 & -16, R) && Rep(v, Q) && Q <= R && IsRankSet(R)
    ensures w3 ^ v == ((w3 & -16) ^ v) | (w3 & 0xF)
  {
    RepLow(v, Q);
    XorLow(w3, v);
  }

  /** kicker = hand[3] ^ value, then keep its highest bit: the highest rank
      that is not the quads (suit bits when there is none). */
  lemma QuadKicker(w3: bv64, v: bv64, R: set<int>, Q: set<int>)
    requires Rep(w3 & -16, R) && Rep(v, Q) && Q <= R && IsRankSet(R)
    ensures Compress(KeepTop(w3 ^ v)) == Dense.Mask(Top(R - Q))
  {
    XorRanks(w3, v, R, Q);
    assert Rep((w3 & -16) ^ v, R - Q) by {
      RepXorSub(w3 & -16, v, R, Q);
    }
    QuadKickerAt(w3, v, R, Q);
  }

  lemma QuadsAt(w0: bv64, w1: bv64, w2: bv64, w3: bv64, w4: bv64, h: set<int>, count: bv64, value: bv64)
    requires Accumulates(w0, w1, w2, w3, w4, h) && count == w0 + w1 + w2 + w4 && value == (count & QUADS) >> 2
    ensures Rep(value, Quads(h))
  {
    QuadsWord(w0, w1, w2, w3, w4, h);
  }

  lemma RanksAt(w0: bv64, w1: bv64, w2: bv64, w3: bv64, w4: bv64, h: set<int>)
    requires Accumulates(w0, w1, w2, w3, w4, h)
    ensures Rep(w3 & -16, Ranks(h)) && Quads(h) <= Ranks(h)
  {
    AccumulatedRanks(w0, w1, w2, w3, w4, h);
    CountsInRanks(h);
  }

  lemma KickerAt(w3: bv64, value: bv64, kicker: bv64, R: set<int>, Q: set<int>)
    requires Rep(w3 & -16, R) && Rep(value, Q) && Q <= R && IsRankSet(R) && kicker == KeepTop(w3 ^ value)
    ensures Compress(kicker) == Dense.Mask(Top(R - Q))
  {
    QuadKicker(w3, value, R, Q);
  }

  lemma QuadsPack(h: set<int>, value: bv64, kicker: bv64)
    requires Quads(h) != {}
    requires Compress(value) == Dense.Mask(Quads(h)) && Compress(kicker) == Dense.Mask(Top(Ranks(h) - Quads(h)))
    ensures ((FOUR_OF_A_KIND as bv32) << 28) | (Compress(value) << 13) | Compress(kicker) == Pack(Classify(h))
  {
    ClassifyQuads(h);
    PackOf(Classify(h), FOUR_OF_A_KIND, Compress(value), Compress(kicker));
  }

  /** Four of a kind: the quads, then the highest other rank. */
  lemma QuadsResult(w0: bv64, w1: bv64, w2: bv64, w3: bv64, w4: bv64, h: set<int>,
                    count: bv64, value: bv64, kicker: bv64)
    requires Accumulates(w0, w1, w2, w3, w4, h) && count == w0 + w1 + w2 + w4 && count & QUADS != 0
    requires value == (count & QUADS) >> 2 && kicker == KeepTop(w3 ^ value)
    ensures ((FOUR_OF_A_KIND as bv32) << 28) | (Compress(value) << 13) | Compress(kicker) == Pack(Classify(h))
  {
    QuadsAt(w0, w1, w2, w3, w4, h, count, value);
    QuadsShift(count);
    NonzeroRep(value, Quads(h));
    CompressWord(value, Quads(h));
    RanksAt(w0, w1, w2, w3, w4, h);
    KickerAt(w3, value, kicker, Ranks(h), Quads(h));
    QuadsPack(h, value, kicker);
  }

  /* --------------------------------------------------------- full houses */

  /** The count word's planes, through the evaluator's own variables. */
  lemma NoQuadsAt(w0: bv64, w1: bv64, w2: bv64, w3: bv64, w4: bv64, h: set<int>, count: bv64)
    requires Accumulates(w0, w1, w2, w3, w4, h) && count == w0 + w1 + w2 + w4 && count & QUADS == 0
    ensures Quads(h) == {}
  {
    NoQuads(w0, w1, w2, w3, w4, h);
  }

  lemma TripsAt(w0: bv64, w1: bv64, w2: bv64, w3: bv64, w4: bv64, h: set<int>, count: bv64, sets: bv64)
    requires Accumulates(w0, w1, w2, w3, w4, h) && count == w0 + w1 + w2 + w4 && sets == SetsOf(count)
    ensures Rep(sets, Trips(h))
  {
    TripsWord(w0, w1, w2, w3, w4, h);
  }

  lemma PairsAt(w0: bv64, w1: bv64, w2: bv64, w3: bv64, w4: bv64, h: set<int>, count: bv64, pair: bv64)
    requires Accumulates(w0, w1, w2, w3, w4, h) && count == w0 + w1 + w2 + w4 && pair == PairOf(count)
    ensures Rep(pair, Pairs(h))
  {
    PairsWord(w0, w1, w2, w3, w4, h);
  }

  /** x & (x - 1) on a rank word: the set without its lowest rank ... */
  lemma ClearMask(x: bv64, S: set<int>, y: bv64)
    requires Rep(x, S) && IsRankSet(S) && S != {} && y == x & (x - 1)
    ensures Compress(y) == Dense.Mask(S - {Lowest(S)})
  {
    RepClear(x, S, Lowest(S));
    CompressWord(y, S - {Lowest(S)});
  }

  /** ... which is empty exactly when S has one rank ... */
  lemma ClearZero(x: bv64, S: set<int>, y: bv64)
    requires Rep(x, S) && S != {} && y == x & (x - 1)
    ensures y == 0 <==> S - {Lowest(S)} == {}
  {
    RepClear(x, S, Lowest(S));
    RepZero(y, S - {Lowest(S)});
  }

  /** ... and x ^ (x & (x - 1)) is its lowest rank alone. */
  lemma LowestMask(x: bv64, S: set<int>, y: bv64, z: bv64)
    requires Rep(x, S) && IsRankSet(S) && S != {} && y == x & (x - 1) && z == x ^ y
    ensures Compress(z) == Dense.Mask({Lowest(S)})
  {
    RepClear(x, S, Lowest(S));
    RepXorSub(x, y, S, S - {Lowest(S)});
    assert S - (S - {Lowest(S)}) == {Lowest(S)};
    CompressWord(z, {Lowest(S)});
  }

  lemma NonzeroRep(x: bv64, S: set<int>)
    requires Rep(x, S) && x != 0
    ensures S != {}
  {
    RepZero(x, S);
  }

  lemma ClearNonzero(x: bv64)
    requires x & (x - 1) != 0
    ensures x != 0
  {
  }

  lemma TwoTripsPack(h: set<int>, value: bv64, kicker: bv64)
    requires Quads(h) == {} && Trips(h) != {} && Trips(h) - {Lowest(Trips(h))} != {}
    requires Compress(value) == Dense.Mask(Trips(h) - {Lowest(Trips(h))})
    requires Compress(kicker) == Dense.Mask({Lowest(Trips(h))})
    ensures ((FULL_HOUSE as bv32) << 28) | (Compress(value) << 13) | Compress(kicker) == Pack(Classify(h))
  {
    ClassifyTwoTrips(h);
    PackOf(Classify(h), FULL_HOUSE, Compress(value), Compress(kicker));
  }

  /** Two trips: the higher ones are the value, the lowest the kicker. */
  lemma TwoTripsResult(w0: bv64, w1: bv64, w2: bv64, w3: bv64, w4: bv64, h: set<int>,
                       count: bv64, sets: bv64, value: bv64, kicker: bv64)
    requires Accumulates(w0, w1, w2, w3, w4, h) && count == w0 + w1 + w2 + w4 && count & QUADS == 0
    requires sets == SetsOf(count) && value == sets & (sets - 1) && value != 0 && kicker == sets ^ value
    ensures ((FULL_HOUSE as bv32) << 28) | (Compress(value) << 13) | Compress(kicker) == Pack(Classify(h))
  {
    NoQuadsAt(w0, w1, w2, w3, w4, h, count);
    TripsAt(w0, w1, w2, w3, w4, h, count, sets);
    ClearNonzero(sets);
    NonzeroRep(sets, Trips(h));
    ClearZero(sets, Trips(h), value);
    ClearMask(sets, Trips(h), value);
    LowestMask(sets, Trips(h), value, kicker);
    TwoTripsPack(h, value, kicker);
  }

  /** kicker = temp ? temp : pair, with temp = pair & (pair - 1): the higher
      pairs when there are two, else the one pair. */
  lemma PairKicker(pair: bv64, P: set<int>, temp: bv64, kicker: bv64)
    requires Rep(pair, P) && IsRankSet(P) && P != {} && temp == pair & (pair - 1)
    requires kicker == if temp != 0 then temp else pair
    ensures Compress(kicker) == Dense.Mask(if P - {Lowest(P)} != {} then P - {Lowest(P)} else P)
  {
    ClearZero(pair, P, temp);
    if temp != 0 {
      ClearMask(pair, P, temp);
    } else {
      CompressWord(pair, P);
    }
  }

  lemma TripsPairsPack(h: set<int>, value: bv64, kicker: bv64)
    requires Quads(h) == {} && Trips(h) != {} && Trips(h) - {Lowest(Trips(h))} == {} && Pairs(h) != {}
    requires Compress(value) == Dense.Mask(Trips(h))
    requires Compress(kicker) ==
      Dense.Mask(if Pairs(h) - {Lowest(Pairs(h))} != {} then Pairs(h) - {Lowest(Pairs(h))} else Pairs(h))
    ensures ((FULL_HOUSE as bv32) << 28) | (Compress(value) << 13) | Compress(kicker) == Pack(Classify(h))
  {
    ClassifyTripsPairs(h);
    PackOf(Classify(h), FULL_HOUSE, Compress(value), Compress(kicker));
  }

  /** sets with one bit: a single trip, which is the value. */
  lemma OneTrip(w0: bv64, w1: bv64, w2: bv64, w3: bv64, w4: bv64, h: set<int>, count: bv64, sets: bv64)
    requires Accumulates(w0, w1, w2, w3, w4, h) && count == w0 + w1 + w2 + w4
    requires sets == SetsOf(count) && sets & (sets - 1) == 0 && sets != 0
    ensures Trips(h) != {} && Trips(h) - {Lowest(Trips(h))} == {}
    ensures Compress(sets) == Dense.Mask(Trips(h))
  {
    TripsAt(w0, w1, w2, w3, w4, h, count, sets);
    NonzeroRep(sets, Trips(h));
    ClearZero(sets, Trips(h), sets & (sets - 1));
    CompressWord(sets, Trips(h));
  }

  lemma FullHouseKick(w0: bv64, w1: bv64, w2: bv64, w3: bv64, w4: bv64, h: set<int>,
                  count: bv64, pair: bv64, temp: bv64, kicker: bv64)
    requires Accumulates(w0, w1, w2, w3, w4, h) && count == w0 + w1 + w2 + w4
    requires pair == PairOf(count) && pair != 0
    requires temp == pair & (pair - 1) && kicker == if temp != 0 then temp else pair
    ensures Pairs(h) != {}
    ensures Compress(kicker) ==
      Dense.Mask(if Pairs(h) - {Lowest(Pairs(h))} != {} then Pairs(h) - {Lowest(Pairs(h))} else Pairs(h))
  {
    PairsAt(w0, w1, w2, w3, w4, h, count, pair);
    NonzeroRep(pair, Pairs(h));
    PairKicker(pair, Pairs(h), temp, kicker);
  }

  /** One trip and a pair or two. */
  lemma TripsPairsResult(w0: bv64, w1: bv64, w2: bv64, w3: bv64, w4: bv64, h: set<int>,
                         count: bv64, sets: bv64, pair: bv64, temp: bv64, kicker: bv64)
    requires Accumulates(w0, w1, w2, w3, w4, h) && count == w0 + w1 + w2 + w4 && count & QUADS == 0
    requires sets == SetsOf(count) && sets & (sets - 1) == 0 && sets != 0
    requires pair == PairOf(count) && pair != 0
    requires temp == pair & (pair - 1) && kicker == if temp != 0 then temp else pair
    ensures ((FULL_HOUSE as bv32) << 28) | (Compress(sets) << 13) | Compress(kicker) == Pack(Classify(h))
  {
    NoQuadsAt(w0, w1, w2, w3, w4, h, count);
    OneTrip(w0, w1, w2, w3, w4, h, count, sets);
    FullHouseKick(w0, w1, w2, w3, w4, h, count, pair, temp, kicker);
    TripsPairsPack(h, sets, kicker);
  }

  /* ---------------------------------------------- the tests that fall through */

  /** Neither quads nor a full house: what the flush and straight checks need. */
  lemma NoFullHouseAt(w0: bv64, w1: bv64, w2: bv64, w3: bv64, w4: bv64, h: set<int>,
                      count: bv64, sets: bv64, pair: bv64)
    requires Accumulates(w0, w1, w2, w3, w4, h) && count == w0 + w1 + w2 + w4 && count & QUADS == 0
    requires sets == SetsOf(count) && sets & (sets - 1) == 0
    requires pair == PairOf(count) && (sets == 0 || pair == 0)
    ensures BelowFullHouse(h)
  {
    NoQuadsAt(w0, w1, w2, w3, w4, h, count);
    TripsAt(w0, w1, w2, w3, w4, h, count, sets);
    PairsAt(w0, w1, w2, w3, w4, h, count, pair);
    RepZero(sets, Trips(h));
    RepZero(pair, Pairs(h));
    if sets != 0 {
      ClearZero(sets, Trips(h), sets & (sets - 1));
    }
    NoFullHouse(h);
  }

  /* ------------------------------------------------------ the flush scan */

  /** The word the scan reads is the slot of suit s ... */
  lemma SlotAt(w0: bv64, w1: bv64, w2: bv64, w3: bv64, w4: bv64, h: set<int>, s: int, index: int, x: bv64)
    requires Accumulates(w0, w1, w2, w3, w4, h) && 0 <= s < 4 && index == SlotOf(s)
    requires x == if index == 0 then w0 else if index == 1 then w1 else if index == 2 then w2 else w4
    ensures SlotHolds(x, h, s)
  {
  }

  /** ... and its counter is at least five exactly when the suit has five cards. */
  lemma SlotTest(x: bv64, h: set<int>, s: int)
    requires SlotHolds(x, h, s)
    ensures x & 0xF >= 5 <==> SuitSize(h, s) >= 5
  {
    NibSmall(SuitSize(h, s));
  }

  /** count = kicker & 7 is the flush suit's number of cards: at most seven. */
  lemma FlushCount(x: bv64, h: set<int>, s: int)
    requires SlotHolds(x, h, s) && IsHand(h) && |h| <= 7 && 0 <= s < 4
    ensures SuitSize(h, s) <= 7 && x & 7 == Nib(SuitSize(h, s))
  {
    HandSize(h);
    NibSmall(SuitSize(h, s));
  }

  /** kicker & -16 after the scan: the ranks the straight check works on. */
  lemma ScanRanks(w0: bv64, w1: bv64, w2: bv64, w3: bv64, w4: bv64, h: set<int>,
                  result: bv64, slot: bv64, x: bv64)
    requires Accumulates(w0, w1, w2, w3, w4, h)
    requires result == 0 ==> slot == w3 && FlushSuit(h) == 4
    requires result != 0 ==> FlushSuit(h) < 4 && SlotHolds(slot, h, FlushSuit(h))
    requires x == slot & -16
    ensures Rep(x, StraightRanks(h))
  {
    if result == 0 {
      AccumulatedRanks(w0, w1, w2, w3, w4, h);
      NoFlushRanks(h);
    }
  }

  /** Without a flush the straight check looked at all the ranks. */
  lemma NoFlushFacts(h: set<int>, x: bv64)
    requires FlushSuit(h) == 4 && Rep(x, StraightRanks(h)) && HighTops(StraightRanks(h)) == {}
    ensures Rep(x, Ranks(h)) && HighTops(Ranks(h)) == {}
  {
    NoFlushRanks(h);
  }

  /* ------------------------------------------------------ straights and flushes */

  /** The ace copied below the deuce: the extended ranks, as a run of length one. */
  lemma AceRun(x: bv64, X: set<int>, v0: bv64)
    requires Rep(x, X) && IsRankSet(X) && v0 == x | ((x >> 52) & 0x10)
    ensures Rep(v0, Run(Extended(X), 0))
  {
    RepAceCopy(x, X);
  }

  /** value &= value << 4: one more rank in a row. */
  lemma RunRound(v: bv64, E: set<int>, k: nat, w: bv64)
    requires Rep(v, Run(E, k)) && w == v & (v << 4)
    ensures Rep(w, Run(E, k + 1))
  {
    RepAndUp(v, v, Run(E, k), Run(E, k));
  }

  lemma RunIsTops(v: bv64, X: set<int>)
    requires Rep(v, Run(Extended(X), 4)) && IsRankSet(X)
    ensures Rep(v, Tops(X))
  {
    RunTops(X);
  }

  /** Four rounds leave the tops of the straights. */
  lemma StraightWords(x: bv64, X: set<int>, v0: bv64, v1: bv64, v2: bv64, v3: bv64, v4: bv64)
    requires Rep(x, X) && IsRankSet(X) && v0 == x | ((x >> 52) & 0x10)
    requires v1 == v0 & (v0 << 4) && v2 == v1 & (v1 << 4)
    requires v3 == v2 & (v2 << 4) && v4 == v3 & (v3 << 4)
    ensures Rep(v4, Tops(X))
  {
    AceRun(x, X, v0);
    RunRound(v0, Extended(X), 0, v1);
    RunRound(v1, Extended(X), 1, v2);
    RunRound(v2, Extended(X), 2, v3);
    RunRound(v3, Extended(X), 3, v4);
    RunIsTops(v4, X);
  }

  /** value &= ~(value / 16) keeps the top of the highest straight. */
  lemma HighWord(v: bv64, X: set<int>, u: bv64)
    requires Rep(v, Tops(X)) && u == v & !(v / 16)
    ensures Rep(u, HighTops(X))
  {
    RepAndNotDown(v, v, Tops(X), Tops(X));
    HighTopsDown(X);
  }

  /** The code's straight test is the table's. */
  lemma StraightTest(v: bv64, X: set<int>)
    requires Rep(v, Tops(X))
    ensures v == 0 <==> HighTops(X) == {}
  {
    RepZero(v, Tops(X));
    HighTopsEmpty(X);
  }

  /** Pack for the categories whose kicker is empty. */
  lemma PackValue(v: HandValue, c: int, V: set<int>, value: bv64)
    requires 0 <= c < 16 && IsRankSet(V) && v == HandValue(c, V, {})
    requires Compress(value) == Dense.Mask(V)
    ensures ((c as bv32) << 28) | (Compress(value) << 13) == Pack(v)
  {
    Dense.MaskBound({});
    PackOf(v, c, Compress(value), 0);
  }

  /** Pack for the categories with a kicker. */
  lemma PackBoth(v: HandValue, c: int, V: set<int>, K: set<int>, value: bv64, kicker: bv64)
    requires 0 <= c < 16 && IsRankSet(V) && IsRankSet(K) && v == HandValue(c, V, K)
    requires Compress(value) == Dense.Mask(V) && Compress(kicker) == Dense.Mask(K)
    ensures ((c as bv32) << 28) | (Compress(value) << 13) | Compress(kicker) == Pack(v)
  {
    PackOf(v, c, Compress(value), Compress(kicker));
  }

  /** The category word of the 64-bit result variable. */
  lemma CategoryWord(result: bv64, c: int)
    requires 0 <= c < 16 && result == c as bv64
    ensures (result as bv32) << 28 == (c as bv32) << 28
  {
  }

  lemma StraightFlushPack(h: set<int>, result: bv64, value: bv64)
    requires BelowFullHouse(h) && HighTops(StraightRanks(h)) != {} && FlushSuit(h) < 4
    requires Compress(value) == Dense.Mask(HighTops(StraightRanks(h))) && result == 9
    ensures ((result as bv32) << 28) | (Compress(value) << 13) == Pack(Classify(h))
  {
    ClassifyStraight(h);
    CategoryWord(result, STRAIGHT_FLUSH);
    PackValue(Classify(h), STRAIGHT_FLUSH, HighTops(StraightRanks(h)), value);
  }

  lemma PlainStraightPack(h: set<int>, result: bv64, value: bv64)
    requires BelowFullHouse(h) && HighTops(StraightRanks(h)) != {} && FlushSuit(h) == 4
    requires Compress(value) == Dense.Mask(HighTops(StraightRanks(h))) && result == 4
    ensures ((result as bv32) << 28) | (Compress(value) << 13) == Pack(Classify(h))
  {
    ClassifyStraight(h);
    CategoryWord(result, STRAIGHT);
    PackValue(Classify(h), STRAIGHT, HighTops(StraightRanks(h)), value);
  }

  lemma StraightPack(h: set<int>, result: bv64, value: bv64)
    requires BelowFullHouse(h) && HighTops(StraightRanks(h)) != {}
    requires Compress(value) == Dense.Mask(HighTops(StraightRanks(h)))
    requires result == (if FlushSuit(h) < 4 then 5 else 0) + 4
    ensures ((result as bv32) << 28) | (Compress(value) << 13) == Pack(Classify(h))
  {
    if FlushSuit(h) < 4 {
      StraightFlushPack(h, result, value);
    } else {
      PlainStraightPack(h, result, value);
    }
  }

  /** A straight (a straight flush when the ranks are the flush suit's). */
  lemma StraightResult(h: set<int>, x: bv64, v4: bv64, value: bv64, result: bv64)
    requires BelowFullHouse(h) && Rep(x, StraightRanks(h)) && Rep(v4, Tops(StraightRanks(h)))
    requires v4 != 0 && value == v4 & !(v4 / 16)
    requires result == (if FlushSuit(h) < 4 then 5 else 0) + 4
    ensures ((result as bv32) << 28) | (Compress(value) << 13) == Pack(Classify(h))
  {
    StraightTest(v4, StraightRanks(h));
    HighWord(v4, StraightRanks(h), value);
    CompressWord(value, HighTops(StraightRanks(h)));
    StraightPack(h, result, value);
  }

  /** count - 5 rounds of kicker &= kicker - 1 leave the five highest ranks. */
  lemma FlushWord(x: bv64, X: set<int>, n: nat, kicker: bv64)
    requires Rep(x, X) && IsRankSet(X) && n == |X| && n >= 5 && kicker == ClearLow(x, n - 5)
    ensures Compress(kicker) == Dense.Mask(DropLowest(X, |X| - 5))
  {
    ClearLowRep(x, X, n - 5);
    CompressWord(kicker, DropLowest(X, n - 5));
  }

  lemma FlushKicker(h: set<int>, x: bv64, n: nat, kicker: bv64)
    requires FlushSuit(h) < 4
    requires Rep(x, StraightRanks(h)) && n == SuitSize(h, FlushSuit(h)) && kicker == ClearLow(x, n - 5)
    ensures Compress(kicker) == Dense.Mask(DropLowest(StraightRanks(h), |StraightRanks(h)| - 5))
  {
    FlushRanks(h);
    FlushWord(x, StraightRanks(h), n, kicker);
  }

  lemma FlushPack(h: set<int>, kicker: bv64, result: bv64)
    requires BelowFullHouse(h) && FlushSuit(h) < 4 && HighTops(StraightRanks(h)) == {}
    requires Compress(kicker) == Dense.Mask(DropLowest(StraightRanks(h), |StraightRanks(h)| - 5))
    requires result == 5
    ensures ((result as bv32) << 28) | (Compress(kicker) << 13) == Pack(Classify(h))
  {
    ClassifyFlush(h);
    CategoryWord(result, FLUSH);
    PackValue(Classify(h), FLUSH, DropLowest(StraightRanks(h), |StraightRanks(h)| - 5), kicker);
  }

  /** A flush: the five highest ranks of the suit. */
  lemma FlushResult(h: set<int>, x: bv64, n: nat, kicker: bv64, result: bv64)
    requires BelowFullHouse(h) && FlushSuit(h) < 4 && HighTops(StraightRanks(h)) == {}
    requires Rep(x, StraightRanks(h)) && n == SuitSize(h, FlushSuit(h)) && kicker == ClearLow(x, n - 5)
    requires result == 5
    ensures ((result as bv32) << 28) | (Compress(kicker) << 13) == Pack(Classify(h))
  {
    FlushKicker(h, x, n, kicker);
    FlushPack(h, kicker, result);
  }

  /* ------------------------------------------------- trips, pairs, high card */

  lemma NoTripsAt(w0: bv64, w1: bv64, w2: bv64, w3: bv64, w4: bv64, h: set<int>, count: bv64, sets: bv64)
    requires Accumulates(w0, w1, w2, w3, w4, h) && count == w0 + w1 + w2 + w4
    requires sets == SetsOf(count) && sets == 0
    ensures Trips(h) == {}
  {
    TripsAt(w0, w1, w2, w3, w4, h, count, sets);
    RepZero(sets, Trips(h));
  }

  lemma NoPairsAt(w0: bv64, w1: bv64, w2: bv64, w3: bv64, w4: bv64, h: set<int>, count: bv64, pair: bv64)
    requires Accumulates(w0, w1, w2, w3, w4, h) && count == w0 + w1 + w2 + w4
    requires pair == PairOf(count) && pair == 0
    ensures Pairs(h) == {}
  {
    PairsAt(w0, w1, w2, w3, w4, h, count, pair);
    RepZero(pair, Pairs(h));
  }

  /** kicker ^= value removes the value's ranks from the kicker. */
  lemma XorKick(x: bv64, y: bv64, R: set<int>, T: set<int>, k: bv64)
    requires Rep(x, R) && Rep(y, T) && T <= R && k == x ^ y
    ensures Rep(k, R - T)
  {
    RepXorSub(x, y, R, T);
  }

  lemma ClearRep(x: bv64, S: set<int>, y: bv64)
    requires Rep(x, S) && S != {} && y == x & (x - 1)
    ensures Rep(y, S - {Lowest(S)})
  {
    RepClear(x, S, Lowest(S));
  }

  /** kicker &= kicker - 1, once and twice. */
  lemma ClearOnce(x: bv64, S: set<int>, k1: bv64)
    requires Rep(x, S) && k1 == x & (x - 1)
    ensures Rep(k1, DropLowest(S, 1))
  {
    ClearLowRep(x, S, 1);
  }

  lemma ClearTwice(x: bv64, S: set<int>, k1: bv64, k2: bv64)
    requires Rep(x, S) && k1 == x & (x - 1) && k2 == k1 & (k1 - 1)
    ensures Rep(k2, DropLowest(S, 2))
  {
    ClearLowRep(x, S, 2);
  }

  lemma TripsKick(h: set<int>, sets: bv64, x: bv64, k1: bv64, k2: bv64, k3: bv64)
    requires Rep(sets, Trips(h)) && Rep(x, Ranks(h))
    requires k1 == x ^ sets && k2 == k1 & (k1 - 1) && k3 == k2 & (k2 - 1)
    ensures Compress(k3) == Dense.Mask(DropLowest(Ranks(h) - Trips(h), 2))
  {
    CountsInRanks(h);
    XorKick(x, sets, Ranks(h), Trips(h), k1);
    ClearTwice(k1, Ranks(h) - Trips(h), k2, k3);
    CompressWord(k3, DropLowest(Ranks(h) - Trips(h), 2));
  }

  lemma TripsPack(h: set<int>, sets: bv64, k3: bv64)
    requires BelowFullHouse(h) && HighTops(Ranks(h)) == {} && FlushSuit(h) == 4 && Trips(h) != {}
    requires Compress(sets) == Dense.Mask(Trips(h))
    requires Compress(k3) == Dense.Mask(DropLowest(Ranks(h) - Trips(h), 2))
    ensures ((THREE_OF_A_KIND as bv32) << 28) | (Compress(sets) << 13) | Compress(k3) == Pack(Classify(h))
  {
    ClassifyTrips(h);
    PackBoth(Classify(h), THREE_OF_A_KIND, Trips(h), DropLowest(Ranks(h) - Trips(h), 2), sets, k3);
  }

  /** Three of a kind: the trip, then the two highest other ranks. */
  lemma TripsResult(w0: bv64, w1: bv64, w2: bv64, w3: bv64, w4: bv64, h: set<int>,
                    count: bv64, sets: bv64, x: bv64, k1: bv64, k2: bv64, k3: bv64)
    requires Accumulates(w0, w1, w2, w3, w4, h) && count == w0 + w1 + w2 + w4
    requires sets == SetsOf(count) && sets != 0
    requires BelowFullHouse(h) && FlushSuit(h) == 4 && HighTops(Ranks(h)) == {}
    requires Rep(x, Ranks(h)) && k1 == x ^ sets && k2 == k1 & (k1 - 1) && k3 == k2 & (k2 - 1)
    ensures ((THREE_OF_A_KIND as bv32) << 28) | (Compress(sets) << 13) | Compress(k3) == Pack(Classify(h))
  {
    TripsAt(w0, w1, w2, w3, w4, h, count, sets);
    NonzeroRep(sets, Trips(h));
    CompressWord(sets, Trips(h));
    TripsKick(h, sets, x, k1, k2, k3);
    TripsPack(h, sets, k3);
  }

  /** temp = pair & (pair - 1) with more than one bit: three pairs. */
  lemma ThreePairsWords(pair: bv64, P: set<int>, temp: bv64)
    requires Rep(pair, P) && IsRankSet(P) && pair != 0 && temp == pair & (pair - 1) && temp & (temp - 1) != 0
    ensures P != {} && P - {Lowest(P)} != {} && (P - {Lowest(P)}) - {Lowest(P - {Lowest(P)})} != {}
    ensures Rep(temp, P - {Lowest(P)}) && Compress(temp) == Dense.Mask(P - {Lowest(P)})
  {
    NonzeroRep(pair, P);
    ClearRep(pair, P, temp);
    ClearNonzero(temp);
    NonzeroRep(temp, P - {Lowest(P)});
    ClearZero(temp, P - {Lowest(P)}, temp & (temp - 1));
    CompressWord(temp, P - {Lowest(P)});
  }

  lemma ThreePairsKick(h: set<int>, temp: bv64, x: bv64, k1: bv64, k2: bv64)
    requires Pairs(h) != {} && Rep(temp, Pairs(h) - {Lowest(Pairs(h))}) && Rep(x, Ranks(h))
    requires k1 == x ^ temp && k2 == k1 & (k1 - 1)
    ensures Compress(k2) == Dense.Mask(DropLowest(Ranks(h) - (Pairs(h) - {Lowest(Pairs(h))}), 1))
  {
    CountsInRanks(h);
    XorKick(x, temp, Ranks(h), Pairs(h) - {Lowest(Pairs(h))}, k1);
    ClearOnce(k1, Ranks(h) - (Pairs(h) - {Lowest(Pairs(h))}), k2);
    CompressWord(k2, DropLowest(Ranks(h) - (Pairs(h) - {Lowest(Pairs(h))}), 1));
  }

  lemma ThreePairsPack(h: set<int>, temp: bv64, k2: bv64)
    requires BelowFullHouse(h) && HighTops(Ranks(h)) == {} && FlushSuit(h) == 4 && Trips(h) == {}
    requires Pairs(h) != {}
    requires var P := Pairs(h) - {Lowest(Pairs(h))}; P != {} && P - {Lowest(P)} != {}
    requires Compress(temp) == Dense.Mask(Pairs(h) - {Lowest(Pairs(h))})
    requires Compress(k2) == Dense.Mask(DropLowest(Ranks(h) - (Pairs(h) - {Lowest(Pairs(h))}), 1))
    ensures ((TWO_PAIR as bv32) << 28) | (Compress(temp) << 13) | Compress(k2) == Pack(Classify(h))
  {
    ClassifyThreePairs(h);
    PackBoth(Classify(h), TWO_PAIR, Pairs(h) - {Lowest(Pairs(h))},
      DropLowest(Ranks(h) - (Pairs(h) - {Lowest(Pairs(h))}), 1), temp, k2);
  }

  /** Three pairs: the two higher ones, then the highest other rank (the lowest
      pair may be it). */
  lemma ThreePairsResult(w0: bv64, w1: bv64, w2: bv64, w3: bv64, w4: bv64, h: set<int>,
                         count: bv64, sets: bv64, pair: bv64, temp: bv64, x: bv64, k1: bv64, k2: bv64)
    requires Accumulates(w0, w1, w2, w3, w4, h) && count == w0 + w1 + w2 + w4
    requires sets == SetsOf(count) && sets == 0 && pair == PairOf(count) && pair != 0
    requires temp == pair & (pair - 1) && temp & (temp - 1) != 0
    requires BelowFullHouse(h) && FlushSuit(h) == 4 && HighTops(Ranks(h)) == {}
    requires Rep(x, Ranks(h)) && k1 == x ^ temp && k2 == k1 & (k1 - 1)
    ensures ((TWO_PAIR as bv32) << 28) | (Compress(temp) << 13) | Compress(k2) == Pack(Classify(h))
  {
    NoTripsAt(w0, w1, w2, w3, w4, h, count, sets);
    PairsAt(w0, w1, w2, w3, w4, h, count, pair);
    ThreePairsWords(pair, Pairs(h), temp);
    ThreePairsKick(h, temp, x, k1, k2);
    ThreePairsPack(h, temp, k2);
  }

  /** temp = pair & (pair - 1) with at most one bit: one or two pairs, and
      temp is non-zero exactly when there are two. */
  lemma PairsWords(pair: bv64, P: set<int>, temp: bv64)
    requires Rep(pair, P) && IsRankSet(P) && pair != 0 && temp == pair & (pair - 1) && temp & (temp - 1) == 0
    ensures P != {}
    ensures var Q := P - {Lowest(P)}; (Q == {} || Q - {Lowest(Q)} == {}) && (temp != 0 <==> Q != {})
    ensures Compress(pair) == Dense.Mask(P)
  {
    NonzeroRep(pair, P);
    ClearRep(pair, P, temp);
    RepZero(temp, P - {Lowest(P)});
    if temp != 0 {
      NonzeroRep(temp, P - {Lowest(P)});
      ClearZero(temp, P - {Lowest(P)}, temp & (temp - 1));
    }
    CompressWord(pair, P);
  }

  lemma PairsKick(h: set<int>, pair: bv64, x: bv64, k1: bv64, k2: bv64, k3: bv64)
    requires Rep(pair, Pairs(h)) && Rep(x, Ranks(h))
    requires k1 == x ^ pair && k2 == k1 & (k1 - 1) && k3 == k2 & (k2 - 1)
    ensures Compress(k3) == Dense.Mask(DropLowest(Ranks(h) - Pairs(h), 2))
  {
    CountsInRanks(h);
    XorKick(x, pair, Ranks(h), Pairs(h), k1);
    ClearTwice(k1, Ranks(h) - Pairs(h), k2, k3);
    CompressWord(k3, DropLowest(Ranks(h) - Pairs(h), 2));
  }

  /** The category 1 + (temp > 0). */
  lemma PairCategory(category: bv32, temp: bv64)
    requires category == 1 + (if temp > 0 then 1 else 0)
    ensures category << 28 == ((if temp != 0 then TWO_PAIR else ONE_PAIR) as bv32) << 28
  {
  }

  lemma PairsPack(h: set<int>, category: bv32, temp: bv64, pair: bv64, k3: bv64)
    requires BelowFullHouse(h) && HighTops(Ranks(h)) == {} && FlushSuit(h) == 4 && Trips(h) == {}
    requires Pairs(h) != {}
    requires var Q := Pairs(h) - {Lowest(Pairs(h))}; (Q == {} || Q - {Lowest(Q)} == {}) && (temp != 0 <==> Q != {})
    requires category == 1 + (if temp > 0 then 1 else 0)
    requires Compress(pair) == Dense.Mask(Pairs(h))
    requires Compress(k3) == Dense.Mask(DropLowest(Ranks(h) - Pairs(h), 2))
    ensures (category << 28) | (Compress(pair) << 13) | Compress(k3) == Pack(Classify(h))
  {
    ClassifyPairs(h);
    PairCategory(category, temp);
    PackBoth(Classify(h), if temp != 0 then TWO_PAIR else ONE_PAIR, Pairs(h),
      DropLowest(Ranks(h) - Pairs(h), 2), pair, k3);
  }

  /** One pair, or two: the pairs, then the two highest other ranks. */
  lemma PairsResult(w0: bv64, w1: bv64, w2: bv64, w3: bv64, w4: bv64, h: set<int>,
                    count: bv64, sets: bv64, pair: bv64, temp: bv64, category: bv32,
                    x: bv64, k1: bv64, k2: bv64, k3: bv64)
    requires Accumulates(w0, w1, w2, w3, w4, h) && count == w0 + w1 + w2 + w4
    requires sets == SetsOf(count) && sets == 0 && pair == PairOf(count) && pair != 0
    requires temp == pair & (pair - 1) && temp & (temp - 1) == 0
    requires category == 1 + (if temp > 0 then 1 else 0)
    requires BelowFullHouse(h) && FlushSuit(h) == 4 && HighTops(Ranks(h)) == {}
    requires Rep(x, Ranks(h)) && k1 == x ^ pair && k2 == k1 & (k1 - 1) && k3 == k2 & (k2 - 1)
    ensures (category << 28) | (Compress(pair) << 13) | Compress(k3) == Pack(Classify(h))
  {
    NoTripsAt(w0, w1, w2, w3, w4, h, count, sets);
    PairsAt(w0, w1, w2, w3, w4, h, count, pair);
    PairsWords(pair, Pairs(h), temp);
    PairsKick(h, pair, x, k1, k2, k3);
    PairsPack(h, category, temp, pair, k3);
  }

  lemma HighCardPack(h: set<int>, k2: bv64)
    requires BelowFullHouse(h) && HighTops(Ranks(h)) == {} && FlushSuit(h) == 4
    requires Trips(h) == {} && Pairs(h) == {}
    requires Compress(k2) == Dense.Mask(DropLowest(Ranks(h), 2))
    ensures 0 | (0 << 13) | Compress(k2) == Pack(Classify(h))
  {
    ClassifyHighCard(h);
    Dense.MaskBound({});
    PackOf(Classify(h), HIGH_CARD, 0, Compress(k2));
  }

  /** High card: the five highest ranks, as the kicker. */
  lemma HighCardResult(w0: bv64, w1: bv64, w2: bv64, w3: bv64, w4: bv64, h: set<int>,
                       count: bv64, sets: bv64, pair: bv64, x: bv64, k1: bv64, k2: bv64)
    requires Accumulates(w0, w1, w2, w3, w4, h) && count == w0 + w1 + w2 + w4
    requires sets == SetsOf(count) && sets == 0 && pair == PairOf(count) && pair == 0
    requires BelowFullHouse(h) && FlushSuit(h) == 4 && HighTops(Ranks(h)) == {}
    requires Rep(x, Ranks(h)) && k1 == x & (x - 1) && k2 == k1 & (k1 - 1)
    ensures 0 | (0 << 13) | Compress(k2) == Pack(Classify(h))
  {
    NoTripsAt(w0, w1, w2, w3, w4, h, count, sets);
    NoPairsAt(w0, w1, w2, w3, w4, h, count, pair);
    ClearTwice(x, Ranks(h), k1, k2);
    CompressWord(k2, DropLowest(Ranks(h), 2));
    HighCardPack(h, k2);
  }

  /* ------------------------------------------------------------ evaluate */

  /** while ((temp = kicker & (kicker - 1))) kicker = temp; */
  method KeepHighest(k0: bv64) returns (kicker: bv64)
    ensures kicker == KeepTop(k0)
  {
    kicker := k0;
    var temp := kicker & (kicker - 1);
    while temp != 0
      invariant temp == kicker & (kicker - 1) && KeepTop(kicker) == KeepTop(k0)
      decreases kicker
    {
      Shrinks(kicker);
      KeepTopStep(kicker, temp);
      kicker := temp;
      temp := kicker & (kicker - 1);
    }
    KeepTopFixed(kicker);
  }

  /** The flush scan: the first of the slots 1, 2, 4, 0 (the suits 0 .. 3)
      whose counter is at least five. On a flush, result is 5, kicker the
      suit's slot and count its number of cards; otherwise nothing changes. */
  method FlushScan(hand: array<bv64>, ghost h: set<int>, kicker0: bv64, count0: bv64)
    returns (result: bv64, kicker: bv64, count: bv64)
    requires hand.Length == 5 && Accumulates(hand[0], hand[1], hand[2], hand[3], hand[4], h)
    requires IsHand(h) && |h| <= 7
    ensures result == 0 ==> kicker == kicker0 && count == count0 && FlushSuit(h) == 4
    ensures result != 0 ==> result == 5 && FlushSuit(h) < 4 && SlotHolds(kicker, h, FlushSuit(h))
    ensures result != 0 ==> SuitSize(h, FlushSuit(h)) <= 7 && count == Nib(SuitSize(h, FlushSuit(h)))
  {
    var w0, w1, w2, w3, w4 := hand[0], hand[1], hand[2], hand[3], hand[4];
    result, kicker, count := 0, kicker0, count0;
    var i := 0;
    while i < 4
      invariant 0 <= i <= 4 && result == 0 && kicker == kicker0 && count == count0
      invariant forall j :: 0 <= j < i ==> SuitSize(h, j) < 5
    {
      var index := (((1 as bv32) << i) & 7) as int;
      IndexSlot(i);
      var slot := hand[index];
      SlotAt(w0, w1, w2, w3, w4, h, i, index, slot);
      SlotTest(slot, h, i);
      if slot & 0xF >= 5 {
        result := 5;
        kicker := slot;
        count := kicker & 0x7;
        FlushFound(h, i);
        FlushCount(kicker, h, i);
        return;
      }
      i := i + 1;
    }
    FlushNone(h);
  }

  /** while (count-- > 5) kicker &= kicker - 1; with count the number n of
      cards of the flush suit: the n - 5 lowest ranks are cleared. */
  method DropToFive(kicker0: bv64, count0: bv64, ghost n: nat) returns (kicker: bv64, count: bv64)
    requires 5 <= n <= 7 && count0 == Nib(n)
    ensures kicker == ClearLow(kicker0, n - 5) && count == Nib(4)
  {
    kicker, count := kicker0, count0;
    ghost var k: nat := n;
    while count > 5
      invariant 5 <= k <= n && count == Nib(k) && kicker == ClearLow(kicker0, n - k)
      decreases k
    {
      NibSmall(k);
      count := count - 1;
      kicker := kicker & (kicker - 1);
      ClearLowStep(kicker0, n - k);
      k := k - 1;
    }
    NibSmall(k);
    count := count - 1;
  }

  /** evaluate: the hand value of the cards accumulated in hand[0 .. 4]. This
      part adds up the counters and decides four of a kind; the later tests
      are FullHouse, FlushOrStraight, FlushOrPairs and PairsOrHighCard, in
      the order of the source. */
  method Evaluate(hand: array<bv64>, ghost h: set<int>) returns (r: bv32)
    requires hand.Length == 5 && Accumulates(hand[0], hand[1], hand[2], hand[3], hand[4], h)
    requires IsHand(h) && |h| <= 7
    ensures r == Pack(Classify(h))
  {
    var w0, w1, w2, w3, w4 := hand[0], hand[1], hand[2], hand[3], hand[4];
    assert Accumulates(w0, w1, w2, w3, w4, h);
    var count := w0 + w1 + w2 + w4;
    var value := count & QUADS;
    if value != 0 {
      value := value >> 2;
      var kicker := KeepHighest(w3 ^ value);
      QuadsResult(w0, w1, w2, w3, w4, h, count, value, kicker);
      return ((FOUR_OF_A_KIND as bv32) << 28) | (Compress(value) << 13) | Compress(kicker);
    }
    r := FullHouse(hand, h, w0, w1, w2, w3, w4, count);
  }

  /** The planes, step by step. */
  lemma PlanesOf(count: bv64, p: bv64, sets: bv64, q: bv64, pair: bv64)
    requires p == count & PAIRS && sets == count & (p >> 1) && q == p ^ (sets << 1) && pair == q >> 1
    ensures sets == SetsOf(count) && pair == PairOf(count)
  {
  }

  /** pair = count & PAIRS; set = count & (pair >> 1); pair ^= set << 1;
      pair >>= 1: the planes of the ranks held three times and twice. */
  method Planes(ghost h: set<int>, ghost w0: bv64, ghost w1: bv64, ghost w2: bv64, ghost w3: bv64, ghost w4: bv64,
                count: bv64) returns (sets: bv64, pair: bv64)
    requires Accumulates(w0, w1, w2, w3, w4, h) && count == w0 + w1 + w2 + w4
    ensures Rep(sets, Trips(h)) && Rep(pair, Pairs(h))
    ensures sets == SetsOf(count) && pair == PairOf(count)
  {
    pair := count & PAIRS;
    ghost var p := pair;
    sets := count & (pair >> 1);
    pair := pair ^ (sets << 1);
    ghost var q := pair;
    pair := pair >> 1;
    PlanesOf(count, p, sets, q, pair);
    TripsWord(w0, w1, w2, w3, w4, h);
    PairsWord(w0, w1, w2, w3, w4, h);
  }

  /** evaluate, continued: the trips (set) and pairs planes, and the full
      houses, of two trips or of a trip and a pair. */
  method FullHouse(hand: array<bv64>, ghost h: set<int>, w0: bv64, w1: bv64, w2: bv64, w3: bv64, w4: bv64,
                   count: bv64) returns (r: bv32)
    requires hand.Length == 5 && w0 == hand[0] && w1 == hand[1] && w2 == hand[2] && w3 == hand[3] && w4 == hand[4]
    requires Accumulates(w0, w1, w2, w3, w4, h) && IsHand(h) && |h| <= 7
    requires count == w0 + w1 + w2 + w4 && count & QUADS == 0
    ensures r == Pack(Classify(h))
  {
    var sets, pair := Planes(h, w0, w1, w2, w3, w4, count);
    var value := sets & (sets - 1);
    if value != 0 {
      r := TwoTrips(h, w0, w1, w2, w3, w4, count, sets, value);
    } else if sets != 0 && pair != 0 {
      r := TripAndPair(h, w0, w1, w2, w3, w4, count, sets, pair);
    } else {
      NoFullHouseAt(w0, w1, w2, w3, w4, h, count, sets, pair);
      r := FlushOrStraight(hand, h, w0, w1, w2, w3, w4, count, sets, pair);
    }
  }

  /** Two trips: kicker = set ^ value, the lowest of them. */
  method TwoTrips(ghost h: set<int>, w0: bv64, w1: bv64, w2: bv64, w3: bv64, w4: bv64,
                  count: bv64, sets: bv64, value: bv64) returns (r: bv32)
    requires Accumulates(w0, w1, w2, w3, w4, h) && count == w0 + w1 + w2 + w4 && count & QUADS == 0
    requires sets == SetsOf(count) && value == sets & (sets - 1) && value != 0
    ensures r == Pack(Classify(h))
  {
    var kicker := sets ^ value;
    TwoTripsResult(w0, w1, w2, w3, w4, h, count, sets, value, kicker);
    return ((FULL_HOUSE as bv32) << 28) | (Compress(value) << 13) | Compress(kicker);
  }

  /** One trip and a pair or two: the trip, then the higher pair. */
  method TripAndPair(ghost h: set<int>, w0: bv64, w1: bv64, w2: bv64, w3: bv64, w4: bv64,
                     count: bv64, sets: bv64, pair: bv64) returns (r: bv32)
    requires Accumulates(w0, w1, w2, w3, w4, h) && count == w0 + w1 + w2 + w4 && count & QUADS == 0
    requires sets == SetsOf(count) && sets & (sets - 1) == 0 && sets != 0
    requires pair == PairOf(count) && pair != 0
    ensures r == Pack(Classify(h))
  {
    var value := sets;
    var temp := pair & (pair - 1);
    var kicker := if temp != 0 then temp else pair;
    TripsPairsResult(w0, w1, w2, w3, w4, h, count, sets, pair, temp, kicker);
    return ((FULL_HOUSE as bv32) << 28) | (Compress(value) << 13) | Compress(kicker);
  }

  /** evaluate, continued: the flush scan and the straight test, below a full
      house. */
  method FlushOrStraight(hand: array<bv64>, ghost h: set<int>, w0: bv64, w1: bv64, w2: bv64, w3: bv64, w4: bv64,
                         count: bv64, sets: bv64, pair: bv64) returns (r: bv32)
    requires hand.Length == 5 && w0 == hand[0] && w1 == hand[1] && w2 == hand[2] && w3 == hand[3] && w4 == hand[4]
    requires Accumulates(w0, w1, w2, w3, w4, h) && IsHand(h) && |h| <= 7
    requires count == w0 + w1 + w2 + w4 && sets == SetsOf(count) && pair == PairOf(count) && BelowFullHouse(h)
    ensures r == Pack(Classify(h))
  {
    var result, found, n := FlushScan(hand, h, w3, count);

    var kicker := found & -16;
    ghost var X := StraightRanks(h);
    ScanRanks(w0, w1, w2, w3, w4, h, result, found, kicker);
    var value := kicker | ((kicker >> 52) & 0x10);
    ghost var v0 := value;
    value := value & (value << 4);
    ghost var v1 := value;
    value := value & (value << 4);
    ghost var v2 := value;
    value := value & (value << 4);
    ghost var v3 := value;
    value := value & (value << 4);
    StraightWords(kicker, X, v0, v1, v2, v3, value);
    if value != 0 {
      result := result + 4;
      ghost var v4 := value;
      value := value & !(value / 16);
      StraightResult(h, kicker, v4, value, result);
      return ((result as bv32) << 28) | (Compress(value) << 13);
    }
    StraightTest(value, X);
    r := FlushOrPairs(h, w0, w1, w2, w3, w4, count, sets, pair, result, kicker, n);
  }

  /** evaluate, continued: a flush keeps the five highest ranks of its suit;
      without one, kicker holds all the ranks of the hand. */
  method FlushOrPairs(ghost h: set<int>, w0: bv64, w1: bv64, w2: bv64, w3: bv64, w4: bv64,
                      count: bv64, sets: bv64, pair: bv64, result: bv64, x: bv64, n: bv64) returns (r: bv32)
    requires Accumulates(w0, w1, w2, w3, w4, h) && count == w0 + w1 + w2 + w4
    requires sets == SetsOf(count) && pair == PairOf(count) && BelowFullHouse(h)
    requires result == 0 ==> FlushSuit(h) == 4
    requires result != 0 ==> result == 5 && FlushSuit(h) < 4
    requires result != 0 ==> SuitSize(h, FlushSuit(h)) <= 7 && n == Nib(SuitSize(h, FlushSuit(h)))
    requires Rep(x, StraightRanks(h)) && HighTops(StraightRanks(h)) == {}
    ensures r == Pack(Classify(h))
  {
    if result != 0 {
      ghost var size := SuitSize(h, FlushSuit(h));
      FlushRanks(h);
      var kicker, count := DropToFive(x, n, size);
      FlushResult(h, x, size, kicker, result);
      return ((result as bv32) << 28) | (Compress(kicker) << 13);
    }
    NoFlushFacts(h, x);
    r := PairsOrHighCard(h, w0, w1, w2, w3, w4, count, sets, pair, x);
  }

  /** evaluate, continued: three of a kind, pairs and high card, with kicker
      holding all the ranks of the hand. */
  method PairsOrHighCard(ghost h: set<int>, w0: bv64, w1: bv64, w2: bv64, w3: bv64, w4: bv64,
                         count: bv64, sets: bv64, pair: bv64, x: bv64) returns (r: bv32)
    requires Accumulates(w0, w1, w2, w3, w4, h) && count == w0 + w1 + w2 + w4
    requires sets == SetsOf(count) && pair == PairOf(count)
    requires BelowFullHouse(h) && FlushSuit(h) == 4 && HighTops(Ranks(h)) == {} && Rep(x, Ranks(h))
    ensures r == Pack(Classify(h))
  {
    var kicker := x;
    var temp: bv64;
    if sets != 0 {
      // three of a kind
      kicker := kicker ^ sets;
      ghost var k1 := kicker;
      kicker := kicker & (kicker - 1);
      ghost var k2 := kicker;
      kicker := kicker & (kicker - 1);
      TripsResult(w0, w1, w2, w3, w4, h, count, sets, x, k1, k2, kicker);
      return ((THREE_OF_A_KIND as bv32) << 28) | (Compress(sets) << 13) | Compress(kicker);
    } else if pair != 0 {
      temp := pair & (pair - 1);
      if temp & (temp - 1) != 0 {
        // three pairs: the lowest is dropped
        kicker := kicker ^ temp;
        ghost var k1 := kicker;
        kicker := kicker & (kicker - 1);
        ThreePairsResult(w0, w1, w2, w3, w4, h, count, sets, pair, temp, x, k1, kicker);
        return ((TWO_PAIR as bv32) << 28) | (Compress(temp) << 13) | Compress(kicker);
      } else {
        // one pair, or two
        kicker := kicker ^ pair;
        ghost var k1 := kicker;
        kicker := kicker & (kicker - 1);
        ghost var k2 := kicker;
        kicker := kicker & (kicker - 1);
        var category: bv32 := 1 + if temp > 0 then 1 else 0;
        PairsResult(w0, w1, w2, w3, w4, h, count, sets, pair, temp, category, x, k1, k2, kicker);
        return (category << 28) | (Compress(pair) << 13) | Compress(kicker);
      }
    }

    // high card
    kicker := kicker & (kicker - 1);
    ghost var k1 := kicker;
    kicker := kicker & (kicker - 1);
    HighCardResult(w0, w1, w2, w3, w4, h, count, sets, pair, x, k1, kicker);
    return 0 | (0 << 13) | Compress(kicker);
  }
}
