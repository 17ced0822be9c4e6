// The evaluation steps shared by the three 32-bit evaluators
// (ace_eval_decompress.c, ace_eval_base.c and ace_eval_mini.c). They differ
// in how they leave E (separate returns, or one exit after a common tail) and
// in their compress, but each branch computes the same words from the count
// word h0 + h1 + h2 + h4 - (h3 & -16) and from h[3]; the lemmas here say what
// those words hold, and Scores says that a category word, a value word and a
// kicker word are the decision table's answer for the hand.

module Hand32 {

  import opened RankSets
  import opened Cards
  import opened Words32
  import opened Bits32
  import opened Ace32
  import opened Eval32
  import opened Loops32
  import opened HandValues

  /** The rank fields of x hold exactly S, and its bit 5 is clear: what every
      compress of the 32-bit evaluators reads as the mask of S. */
  ghost predicate Fields(x: bv32, S: set<int>)
  {
    Rep(x & SLOT_RANKS, S) && x & 0x20 == 0
  }

  /** t, value and kicker are the category, the value ranks and the kicker
      ranks of the decision table for h. */
  ghost predicate Scores(h: set<int>, t: bv32, value: bv32, kicker: bv32)
  {
    CategoryWord(Classify(h).category) == t &&
    Fields(value, Classify(h).value) && Fields(kicker, Classify(h).kicker)
  }

  /** A category as a word, spelled out case by case: the solver reads these
      far more readily than a conversion from int. */
  function CategoryWord(c: int): (t: bv32)
    ensures t < 16
  {
    if c == 0 then 0 else if c == 1 then 1 else if c == 2 then 2 else if c == 3 then 3
    else if c == 4 then 4 else if c == 5 then 5 else if c == 6 then 6 else if c == 7 then 7
    else if c == 8 then 8 else if c == 9 then 9 else if c == 10 then 10 else if c == 11 then 11
    else if c == 12 then 12 else if c == 13 then 13 else if c == 14 then 14 else 15
  }

  lemma CategoryCast(c: int)
    requires 0 <= c < 16
    ensures CategoryWord(c) == c as bv32
  {
  }

  /** A word of ranks is its own rank fields. */
  lemma RankFields(x: bv32, S: set<int>)
    requires Rep(x, S) && IsRankSet(S)
    ensures Fields(x, S)
  {
  }

  lemma ScoresOf(h: set<int>, c: int, V: set<int>, K: set<int>, t: bv32, value: bv32, kicker: bv32)
    requires Classify(h) == HandValue(c, V, K) && t == CategoryWord(c)
    requires Fields(value, V) && Fields(kicker, K)
    ensures Scores(h, t, value, kicker)
  {
  }

  lemma NonzeroRep(x: bv32, S: set<int>)
    requires Rep(x, S) && x != 0
    ensures S != {}
  {
    RepZero(x, S);
  }

  lemma ClearNonzero(x: bv32)
    requires x & (x - 1) != 0
    ensures x != 0
  {
  }

  /* ----------------------------------------------------------- the planes */

  /** evens = 0x55555540 & count: the ranks held twice or four times ... */
  lemma EvensAt(count: bv32, h: set<int>, evens: bv32)
    requires CountFacts(count, h) && evens == RANKS & count
    ensures Rep(evens, Evens(h))
  {
  }

  lemma HalfOdds(count: bv32, odds: bv32)
    requires odds == ODDS & count
    ensures odds / 2 == OddPlane(count)
  {
  }

  /** ... and odds / 2, with odds = 0xAAAAAA80 & count, those held three or
      four times. */
  lemma OddsAt(count: bv32, h: set<int>, odds: bv32)
    requires CountFacts(count, h) && odds == ODDS & count
    ensures Rep(odds / 2, Odds(h))
  {
    HalfOdds(count, odds);
  }

  /** value = evens & odds / 2: the ranks held four times. */
  lemma QuadsAt(count: bv32, h: set<int>, evens: bv32, odds: bv32, value: bv32)
    requires CountFacts(count, h) && evens == RANKS & count && odds == ODDS & count
    requires value == evens & (odds / 2)
    ensures Rep(value, Quads(h))
  {
    EvensAt(count, h, evens);
    OddsAt(count, h, odds);
    RepAnd(evens, odds / 2, Evens(h), Odds(h));
    QuadsPlanes(h);
  }

  /** The quads test of E, on the count word of any hand of up to seven
      cards (four aces included, whose field carries out of the word). */
  lemma QuadTest(count: bv32, h: set<int>)
    requires CountFacts(count, h)
    ensures (RANKS & count) & ((ODDS & count) / 2) != 0 <==> Quads(h) != {}
  {
    var value := (RANKS & count) & ((ODDS & count) / 2);
    QuadsAt(count, h, RANKS & count, ODDS & count, value);
    RepZero(value, Quads(h));
  }

  /** Without quads, odds / 2 holds the trips and evens the pairs. */
  lemma NoQuadsAt(count: bv32, h: set<int>, evens: bv32, odds: bv32)
    requires CountFacts(count, h) && evens == RANKS & count && odds == ODDS & count
    requires evens & (odds / 2) == 0
    ensures Quads(h) == {} && Rep(odds / 2, Trips(h)) && Rep(evens, Pairs(h))
  {
    QuadsAt(count, h, evens, odds, evens & (odds / 2));
    RepZero(evens & (odds / 2), Quads(h));
    EvensAt(count, h, evens);
    OddsAt(count, h, odds);
    QuadsPlanes(h);
    TripsPlanes(h);
    PairsPlanes(h);
  }

  /** odds has no bit 0, so halving commutes with clearing the lowest bit ... */
  lemma HalfClear(count: bv32, odds: bv32, u: bv32, t: bv32, value: bv32)
    requires odds == ODDS & count && u == odds & (odds - 1) && t == odds / 2 && value == u / 2
    ensures value == t & (t - 1)
  {
  }

  /** ... and keeps a non-zero word non-zero. */
  lemma HalfNonzero(count: bv32, odds: bv32, u: bv32, value: bv32)
    requires odds == ODDS & count && u == odds & (odds - 1) && value == u / 2
    ensures u != 0 <==> value != 0
  {
  }

  lemma OddsNonzero(count: bv32, odds: bv32)
    requires odds == ODDS & count
    ensures odds != 0 <==> odds / 2 != 0
  {
  }

  /* ------------------------------------------------------ four of a kind */

  /** KeepTop keeps bits of its argument only, ... */
  lemma SpareClear(w3: bv32, v: bv32, R: set<int>, Q: set<int>)
    requires Rep(w3 & ABOVE_SUITS, R) && Rep(v, Q)
    ensures (w3 ^ v) & 0x20 == 0
  {
  }

  lemma WithinSpare(k: bv32, y: bv32)
    requires k & !y == 0 && y & 0x20 == 0
    ensures k & 0x20 == 0
  {
  }

  /** ... so the quads kicker has bit 5 clear. */
  lemma KickerSpare(w3: bv32, v: bv32, R: set<int>, Q: set<int>)
    requires Rep(w3 & ABOVE_SUITS, R) && Rep(v, Q)
    ensures KeepTop(w3 ^ v) & 0x20 == 0
  {
    SpareClear(w3, v, R, Q);
    KeepTopWithin(w3 ^ v);
    WithinSpare(KeepTop(w3 ^ v), w3 ^ v);
  }

  /** Exclusive or with a word of no low bits leaves the low nibble alone. */
  lemma XorLow(w: bv32, v: bv32)
    requires v & 15 == 0
    ensures w ^ v == ((w & ABOVE_SUITS) ^ v) | (w & 15)
  {
  }

  lemma XorRanks(w3: bv32, v: bv32, Q: set<int>)
    requires Rep(v, Q) && IsRankSet(Q)
    ensures w3 ^ v == ((w3 & ABOVE_SUITS) ^ v) | (w3 & 15)
  {
    RepLow(v, Q);
    XorLow(w3, v);
  }

  lemma KickerTopAt(x: bv32, S: set<int>, w3: bv32, v: bv32, kicker: bv32)
    requires Rep(x, S) && IsRankSet(S) && w3 ^ v == x | (w3 & 15) && kicker == KeepTop(w3 ^ v)
    ensures Rep(kicker & SLOT_RANKS, Top(S))
  {
    KeepTopRep(x, S, w3 & 15);
  }

  lemma XorSubAt(w3: bv32, v: bv32, R: set<int>, Q: set<int>, x: bv32)
    requires Rep(w3 & ABOVE_SUITS, R) && Rep(v, Q) && Q <= R
    requires x == (w3 & ABOVE_SUITS) ^ v
    ensures Rep(x, R - Q)
  {
    RepXorSub(w3 & ABOVE_SUITS, v, R, Q);
  }

  lemma QuadKickerRanks(w3: bv32, v: bv32, R: set<int>, Q: set<int>, kicker: bv32)
    requires Rep(w3 & ABOVE_SUITS, R) && Rep(v, Q) && Q <= R && IsRankSet(R)
    requires kicker == KeepTop(w3 ^ v)
    ensures Rep(kicker & SLOT_RANKS, Top(R - Q))
  {
    var x := (w3 & ABOVE_SUITS) ^ v;
    XorRanks(w3, v, Q);
    XorSubAt(w3, v, R, Q, x);
    KickerTopAt(x, R - Q, w3, v, kicker);
  }

  /** kicker = h[3] ^ value, then keep its highest bit: the highest rank that
      is not the quads (a suit bit when there is none). */
  lemma QuadKicker(w3: bv32, v: bv32, R: set<int>, Q: set<int>, kicker: bv32)
    requires Rep(w3 & ABOVE_SUITS, R) && Rep(v, Q) && Q <= R && IsRankSet(R)
    requires kicker == KeepTop(w3 ^ v)
    ensures Fields(kicker, Top(R - Q))
  {
    QuadKickerRanks(w3, v, R, Q, kicker);
    KickerSpare(w3, v, R, Q);
  }

  /** Four of a kind: the quads, then the highest other rank. */
  lemma QuadsScores(h: set<int>, w3: bv32, count: bv32, evens: bv32, odds: bv32, value: bv32, kicker: bv32)
    requires CountFacts(count, h) && Rep(w3 & ABOVE_SUITS, Ranks(h))
    requires evens == RANKS & count && odds == ODDS & count
    requires value == evens & (odds / 2) && value != 0 && kicker == KeepTop(w3 ^ value)
    ensures Scores(h, 7, value, kicker)
  {
    QuadsAt(count, h, evens, odds, value);
    NonzeroRep(value, Quads(h));
    CountsInRanks(h);
    QuadKicker(w3, value, Ranks(h), Quads(h), kicker);
    RankFields(value, Quads(h));
    ClassifyQuads(h);
    ScoresOf(h, FOUR_OF_A_KIND, Quads(h), Top(Ranks(h) - Quads(h)), 7, value, kicker);
  }

  /* --------------------------------------------------------- full houses */

  lemma ClearRep(x: bv32, S: set<int>, y: bv32)
    requires Rep(x, S) && S != {} && y == x & (x - 1)
    ensures Rep(y, S - {Lowest(S)})
  {
    RepClear(x, S, Lowest(S));
  }

  /** x ^ (x & (x - 1)) is the lowest position of x alone. */
  lemma LowestWord(x: bv32, S: set<int>, y: bv32, z: bv32)
    requires Rep(x, S) && S != {} && Rep(y, S - {Lowest(S)}) && z == x ^ y
    ensures Rep(z, {Lowest(S)})
  {
    RepXorSub(x, y, S, S - {Lowest(S)});
    assert S - (S - {Lowest(S)}) == {Lowest(S)};
  }

  lemma TwoTripsWords(t: bv32, T: set<int>, value: bv32, kicker: bv32)
    requires Rep(t, T) && value == t & (t - 1) && value != 0 && kicker == t ^ value
    ensures T != {} && T - {Lowest(T)} != {}
    ensures Rep(value, T - {Lowest(T)}) && Rep(kicker, {Lowest(T)})
  {
    ClearNonzero(t);
    NonzeroRep(t, T);
    ClearRep(t, T, value);
    NonzeroRep(value, T - {Lowest(T)});
    LowestWord(t, T, value, kicker);
  }

  lemma TwoTripsTable(h: set<int>, value: bv32, kicker: bv32)
    requires Quads(h) == {} && Trips(h) != {} && Trips(h) - {Lowest(Trips(h))} != {}
    requires Fields(value, Trips(h) - {Lowest(Trips(h))}) && Fields(kicker, {Lowest(Trips(h))})
    ensures Scores(h, 6, value, kicker)
  {
    ClassifyTwoTrips(h);
    ScoresOf(h, FULL_HOUSE, Trips(h) - {Lowest(Trips(h))}, {Lowest(Trips(h))}, 6, value, kicker);
  }

  /** Two trips (value = odds & odds - 1, halved; kicker = odds / 2 ^ value):
      the higher trips over the lowest. */
  lemma TwoTripsScores(h: set<int>, count: bv32, odds: bv32, t: bv32, u: bv32, value: bv32, kicker: bv32)
    requires Quads(h) == {} && Rep(t, Trips(h))
    requires odds == ODDS & count && t == odds / 2 && u == odds & (odds - 1) && u != 0
    requires value == u / 2 && kicker == t ^ value
    ensures Scores(h, 6, value, kicker)
  {
    HalfClear(count, odds, u, t, value);
    HalfNonzero(count, odds, u, value);
    TwoTripsWords(t, Trips(h), value, kicker);
    RankFields(value, Trips(h) - {Lowest(Trips(h))});
    RankFields(kicker, {Lowest(Trips(h))});
    TwoTripsTable(h, value, kicker);
  }

  /** kicker = temp ? temp : evens, with temp = evens & evens - 1: the higher
      pairs when there are two or more, else the one pair. */
  lemma PairKicker(evens: bv32, P: set<int>, temp: bv32, kicker: bv32)
    requires Rep(evens, P) && IsRankSet(P) && P != {} && temp == evens & (evens - 1)
    requires kicker == if temp != 0 then temp else evens
    ensures Fields(kicker, if P - {Lowest(P)} != {} then P - {Lowest(P)} else P)
  {
    ClearRep(evens, P, temp);
    RepZero(temp, P - {Lowest(P)});
    if temp != 0 {
      RankFields(temp, P - {Lowest(P)});
    } else {
      RankFields(evens, P);
    }
  }

  lemma OneTrip(t: bv32, T: set<int>)
    requires Rep(t, T) && t != 0 && t & (t - 1) == 0
    ensures T != {} && T - {Lowest(T)} == {}
  {
    NonzeroRep(t, T);
    ClearRep(t, T, t & (t - 1));
    RepZero(t & (t - 1), T - {Lowest(T)});
  }

  lemma TripsPairTable(h: set<int>, t: bv32, kicker: bv32)
    requires Quads(h) == {} && Trips(h) != {} && Trips(h) - {Lowest(Trips(h))} == {} && Pairs(h) != {}
    requires Fields(t, Trips(h))
    requires Fields(kicker, if Pairs(h) - {Lowest(Pairs(h))} != {} then Pairs(h) - {Lowest(Pairs(h))} else Pairs(h))
    ensures Scores(h, 6, t, kicker)
  {
    ClassifyTripsPairs(h);
    ScoresOf(h, FULL_HOUSE, Trips(h),
      if Pairs(h) - {Lowest(Pairs(h))} != {} then Pairs(h) - {Lowest(Pairs(h))} else Pairs(h), 6, t, kicker);
  }

  /** One trip and one or more pairs: the trip over the higher pair. */
  lemma TripsPairScores(h: set<int>, t: bv32, evens: bv32, temp: bv32, kicker: bv32)
    requires Quads(h) == {} && Rep(t, Trips(h)) && t != 0 && t & (t - 1) == 0
    requires Rep(evens, Pairs(h)) && evens != 0 && temp == evens & (evens - 1)
    requires kicker == if temp != 0 then temp else evens
    ensures Scores(h, 6, t, kicker)
  {
    OneTrip(t, Trips(h));
    NonzeroRep(evens, Pairs(h));
    PairKicker(evens, Pairs(h), temp, kicker);
    RankFields(t, Trips(h));
    TripsPairTable(h, t, kicker);
  }

  /** Neither quads nor a full house: what the flush and straight tests need. */
  lemma NoFullHouseAt(h: set<int>, t: bv32, evens: bv32)
    requires Quads(h) == {} && Rep(t, Trips(h)) && t & (t - 1) == 0
    requires Rep(evens, Pairs(h)) && (evens == 0 || t == 0)
    ensures BelowFullHouse(h)
  {
    RepZero(t, Trips(h));
    RepZero(evens, Pairs(h));
    if t != 0 {
      OneTrip(t, Trips(h));
    }
    NoFullHouse(h);
  }
}
