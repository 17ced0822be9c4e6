// The words of the 32-bit evaluators (ace_eval_decompress.c, ace_eval_base.c,
// ace_eval_mini.c): card words, the five-word hand built by the A macro, and
// the count word that E derives from it.
//
// A card word has the rank bit 6 + 2 * rank and the suit bit 1 << suit
// (suit 0 is the club bit 1, 1 the diamond bit 2, 2 the heart bit 4, 3 the
// spade bit 8). A adds the card to the slot card & 7 (slots 1, 2, 4 and 0)
// and ors it into slot 3. A suit's slot is the sum of its cards: the or of
// their rank bits plus the suit bit once per card, which counts the cards in
// bits 0 .. 5 from bit suit upwards.
//
// E derives the count word h0 + h1 + h2 + h4 - (h3 & -16): every rank field
// holds the number of cards of that rank minus one (zero when it is absent),
// even when four aces carry out of the word. CountFacts states that as three
// facts: its even bits are the ranks held twice or four times, its odd bits
// those held three or four times, and its low six bits stay small; CountOld
// and CountNew prove them again after one more card, and Eval32.Accumulates
// keeps them for the words A builds.

module Ace32 {

  import opened RankSets
  import opened Cards
  import opened Words32
  import opened Bits32

  /** The odd bits of the rank fields (the odds mask of the evaluators). */
  const ODDS: bv32 := 0xAAAAAA80

  /* ---------------------------------------------------- counts of ranks */

  /** The ranks held twice or four times: count - 1 is odd. */
  ghost function Evens(h: set<int>): (R: set<int>)
    ensures IsRankSet(R)
  {
    set r | 0 <= r < 13 && (Count(h, r) == 2 || Count(h, r) == 4)
  }

  /** The ranks held three or four times: count - 1 is two or three. */
  ghost function Odds(h: set<int>): (R: set<int>)
    ensures IsRankSet(R)
  {
    set r | 0 <= r < 13 && Count(h, r) >= 3
  }

  lemma CountRange(h: set<int>, r: int)
    ensures 0 <= Count(h, r) <= 4
  {
  }

  /** A rank is held when some suit holds it. */
  lemma HeldCount(h: set<int>, r: int)
    requires 0 <= r < 13
    ensures r in Ranks(h) <==> Count(h, r) >= 1
  {
  }

  /** Adding a new card adds one to the count of its rank only. */
  lemma CountAdd(h: set<int>, s: int, r: int, q: int)
    requires 0 <= s < 4 && 0 <= r < 13 && !HasCard(h, s, r)
    ensures Count(h + {13 * s + r}, q) == Count(h, q) + if q == r then 1 else 0
  {
    SuitRanksAdd(h, s, r, 0);
    SuitRanksAdd(h, s, r, 1);
    SuitRanksAdd(h, s, r, 2);
    SuitRanksAdd(h, s, r, 3);
    assert r in SuitRanks(h + {13 * s + r}, s);
  }

  /** Four of a kind are the ranks in both planes, three of a kind the odd
      plane alone and pairs the even plane alone. */
  lemma QuadsPlanes(h: set<int>)
    ensures Quads(h) == Evens(h) * Odds(h)
  {
    forall q | q in Evens(h) * Odds(h)
      ensures q in Quads(h)
    {
      CountRange(h, q);
    }
  }

  lemma TripsPlanes(h: set<int>)
    ensures Trips(h) == Odds(h) - Evens(h)
  {
    forall q | q in Odds(h) - Evens(h)
      ensures q in Trips(h)
    {
      CountRange(h, q);
    }
  }

  lemma PairsPlanes(h: set<int>)
    ensures Pairs(h) == Evens(h) - Odds(h)
  {
  }

  /** A new card of a rank already held flips its even bit and sets its odd
      bit when the even one was set; the rank was not held four times. */
  lemma EvensOld(h: set<int>, g: set<int>, s: int, r: int)
    requires 0 <= s < 4 && 0 <= r < 13 && !HasCard(h, s, r) && r in Ranks(h) && g == h + {13 * s + r}
    ensures Evens(g) == (Evens(h) - {r}) + ({r} - Evens(h))
  {
    HeldCount(h, r);
    var A, B := Evens(g), (Evens(h) - {r}) + ({r} - Evens(h));
    forall q
      ensures q in A <==> q in B
    {
      CountAdd(h, s, r, q);
    }
  }

  lemma OddsOld(h: set<int>, g: set<int>, s: int, r: int)
    requires 0 <= s < 4 && 0 <= r < 13 && !HasCard(h, s, r) && r in Ranks(h) && g == h + {13 * s + r}
    ensures Odds(g) == Odds(h) + {r} * Evens(h)
  {
    HeldCount(h, r);
    var A, B := Odds(g), Odds(h) + {r} * Evens(h);
    forall q
      ensures q in A <==> q in B
    {
      CountAdd(h, s, r, q);
    }
  }

  /** A rank held in every suit has no card left to add. */
  lemma NotQuads(h: set<int>, s: int, r: int)
    requires 0 <= s < 4 && 0 <= r < 13 && !HasCard(h, s, r)
    ensures r !in Evens(h) * Odds(h)
  {
    assert r !in SuitRanks(h, s);
  }

  /** A card of a new rank changes neither plane. */
  lemma EvensNew(h: set<int>, s: int, r: int)
    requires 0 <= s < 4 && 0 <= r < 13 && !HasCard(h, s, r) && r !in Ranks(h)
    ensures Evens(h + {13 * s + r}) == Evens(h)
  {
    HeldCount(h, r);
    var A, B := Evens(h + {13 * s + r}), Evens(h);
    forall q
      ensures q in A <==> q in B
    {
      CountAdd(h, s, r, q);
    }
  }

  lemma OddsNew(h: set<int>, s: int, r: int)
    requires 0 <= s < 4 && 0 <= r < 13 && !HasCard(h, s, r) && r !in Ranks(h)
    ensures Odds(h + {13 * s + r}) == Odds(h)
  {
    HeldCount(h, r);
    var A, B := Odds(h + {13 * s + r}), Odds(h);
    forall q
      ensures q in A <==> q in B
    {
      CountAdd(h, s, r, q);
    }
  }

  /* ------------------------------------------------------ one card, bits */

  /** An upper bound on the low six bits of the count word of n cards: each
      card adds its suit bit, at most 8. */
  function LowCap(n: nat): bv32
    requires n <= 7
  {
    if n == 0 then 0 else if n == 1 then 8 else if n == 2 then 16 else if n == 3 then 24
    else if n == 4 then 32 else if n == 5 then 40 else if n == 6 then 48 else 56
  }

  lemma CapNext(n: nat)
    requires n < 7
    ensures LowCap(n) <= 48 && LowCap(n) + 8 == LowCap(n + 1)
  {
  }

  /** Adding a card of a rank already held, with its count below four: the
      even bit of its field flips ... */
  lemma EvenOldBits(x: bv32, y: bv32, card: bv32, l: bv32)
    requires y == x + card && x & 63 <= l && l <= 48
    requires card & !0x5555554F == 0 && card & 15 <= 8
    requires EvenPlane(card) & EvenPlane(x) & OddPlane(x) == 0
    ensures EvenPlane(y) == EvenPlane(x) ^ EvenPlane(card)
  {
  }

  /** ... and its odd bit is set when the even bit was. */
  lemma OddOldBits(x: bv32, y: bv32, card: bv32, l: bv32)
    requires y == x + card && x & 63 <= l && l <= 48
    requires card & !0x5555554F == 0 && card & 15 <= 8
    requires EvenPlane(card) & EvenPlane(x) & OddPlane(x) == 0
    ensures OddPlane(y) == OddPlane(x) | (EvenPlane(card) & EvenPlane(x))
  {
  }

  lemma PlanesOld(x: bv32, y: bv32, card: bv32, l: bv32)
    requires y == x + card && x & 63 <= l && l <= 48
    requires card & !0x5555554F == 0 && card & 15 <= 8
    requires EvenPlane(card) & EvenPlane(x) & OddPlane(x) == 0
    ensures EvenPlane(y) == EvenPlane(x) ^ EvenPlane(card)
    ensures OddPlane(y) == OddPlane(x) | (EvenPlane(card) & EvenPlane(x))
  {
    EvenOldBits(x, y, card, l);
    OddOldBits(x, y, card, l);
  }

  /** The suit bit of a card goes to the low six bits. */
  lemma LowBits(x: bv32, y: bv32, card: bv32, l: bv32, l2: bv32)
    requires y == x + card && x & 63 <= l && l <= 48 && l + 8 == l2
    requires card & !0x5555554F == 0 && card & 15 <= 8
    ensures y & 63 <= l2
  {
  }

  lemma LowStep(x: bv32, y: bv32, card: bv32, n: nat)
    requires n < 7 && x & 63 <= LowCap(n) && y == x + card
    requires card & !0x5555554F == 0 && card & 15 <= 8
    ensures y & 63 <= LowCap(n + 1)
  {
    CapNext(n);
    LowBits(x, y, card, LowCap(n), LowCap(n + 1));
  }

  /** Adding the suit bit of a card of a new rank leaves both planes alone ... */
  lemma EvenNewBits(x: bv32, y: bv32, sb: bv32, l: bv32)
    requires y == x + sb && x & 63 <= l && l <= 48 && sb <= 8
    ensures EvenPlane(y) == EvenPlane(x)
  {
  }

  lemma OddNewBits(x: bv32, y: bv32, sb: bv32, l: bv32)
    requires y == x + sb && x & 63 <= l && l <= 48 && sb <= 8
    ensures OddPlane(y) == OddPlane(x)
  {
  }

  lemma PlanesNew(x: bv32, y: bv32, sb: bv32, l: bv32)
    requires y == x + sb && x & 63 <= l && l <= 48 && sb <= 8
    ensures EvenPlane(y) == EvenPlane(x)
    ensures OddPlane(y) == OddPlane(x)
  {
    EvenNewBits(x, y, sb, l);
    OddNewBits(x, y, sb, l);
  }

  /** ... and only grows the low six bits. */
  lemma LowNewBits(x: bv32, y: bv32, sb: bv32, l: bv32, l2: bv32)
    requires y == x + sb && x & 63 <= l && l <= 48 && sb <= 8 && l + 8 == l2
    ensures y & 63 <= l2
  {
  }

  lemma LowNewStep(x: bv32, y: bv32, sb: bv32, n: nat)
    requires n < 7 && x & 63 <= LowCap(n) && y == x + sb && sb <= 8
    ensures y & 63 <= LowCap(n + 1)
  {
    CapNext(n);
    LowNewBits(x, y, sb, LowCap(n), LowCap(n + 1));
  }

  /* ---------------------------------------------------------- card words */

  /** The suit bit of suit s: 1 << s. */
  function SuitBit(s: int): bv32
    requires 0 <= s < 4
  {
    if s == 0 then 1 else if s == 1 then 2 else if s == 2 then 4 else 8
  }

  /** card is the word of the card of suit s and rank r: the bit of the rank
      (6 + 2 * r) above the bit of the suit. */
  ghost predicate CardWord(card: bv32, s: int, r: int)
  {
    0 <= s < 4 && 0 <= r < 13 && Rep(card & ABOVE_SUITS, {r}) && card & 15 == SuitBit(s)
  }

  /** A card word has bits in the rank bits and the suit bits only. */
  lemma CardBits(card: bv32, s: int, r: int)
    requires CardWord(card, s, r)
    ensures card & !0x5555554F == 0 && card & 15 <= 8
  {
  }

  /** Clearing the bits a card word does not use leaves a word of the same card. */
  lemma CardMasked(card: bv32, s: int, r: int)
    ensures CardWord(card, s, r) ==> CardWord(card & 0x5555554F, s, r)
  {
  }

  /** The rank plane of a word: its even bits 6, 8, .., 30. */
  function EvenPlane(x: bv32): bv32
  {
    x & RANKS
  }

  /** The odd bits 7, 9, .., 31 of a word, moved down onto the rank plane. */
  function OddPlane(x: bv32): bv32
  {
    (x >> 1) & RANKS
  }

  /** A card word's rank plane is its rank. */
  lemma CardRanks(card: bv32, s: int, r: int)
    ensures CardWord(card, s, r) ==> Rep(EvenPlane(card), {r})
  {
  }

  /* ---------------------------------------------------------- count word */

  /** x is the count word of hand h: its even plane holds the ranks held
      twice or four times, its odd plane those held three or four times, and
      its low six bits are at most eight per card. */
  ghost predicate CountFacts(x: bv32, h: set<int>)
  {
    |h| <= 7 && Rep(EvenPlane(x), Evens(h)) && Rep(OddPlane(x), Odds(h)) &&
    x & 63 <= LowCap(|h|)
  }

  lemma EmptyCount()
    ensures CountFacts(0, {})
  {
    forall q
      ensures q !in Evens({}) && q !in Odds({})
    {
      assert Count({}, q) == 0;
    }
    assert Evens({}) == {};
    assert Odds({}) == {};
    assert Rep(0, {});
  }

  lemma RepAndIf(a: bv32, b: bv32, A: set<int>, B: set<int>)
    ensures Rep(a, A) && Rep(b, B) ==> Rep(a & b, A * B)
  {
    if Rep(a, A) && Rep(b, B) {
      RepAnd(a, b, A, B);
    }
  }

  /** A rank held once, twice or three times is not in both planes. */
  lemma HeldRoom(card: bv32, p: bv32, t: bv32, h: set<int>, s: int, r: int)
    requires CardWord(card, s, r) && !HasCard(h, s, r)
    requires Rep(p, Evens(h)) && Rep(t, Odds(h))
    ensures EvenPlane(card) & p & t == 0
  {
    CardRanks(card, s, r);
    NotQuads(h, s, r);
    RepAnd(p, t, Evens(h), Odds(h));
    RepAnd(EvenPlane(card), p & t, {r}, Evens(h) * Odds(h));
    RepZero(EvenPlane(card) & (p & t), {r} * (Evens(h) * Odds(h)));
  }

  lemma SizeAdd(h: set<int>, g: set<int>, s: int, r: int)
    requires !HasCard(h, s, r) && g == h + {13 * s + r}
    ensures |g| == |h| + 1
  {
  }

  /** The count word's bits after the full word of a card of a rank already
      held is added. */
  lemma CountWordOld(x: bv32, y: bv32, card: bv32, n: nat)
    requires n < 7 && x & 63 <= LowCap(n) && y == x + card
    requires card & !0x5555554F == 0 && card & 15 <= 8
    requires EvenPlane(card) & EvenPlane(x) & OddPlane(x) == 0
    ensures EvenPlane(y) == EvenPlane(x) ^ EvenPlane(card)
    ensures OddPlane(y) == OddPlane(x) | (EvenPlane(card) & EvenPlane(x))
    ensures y & 63 <= LowCap(n + 1)
  {
    LowStep(x, y, card, n);
    CapNext(n);
    PlanesOld(x, y, card, LowCap(n));
  }

  /** The count word's bits after only the suit bit of a card is added. */
  lemma CountWordNew(x: bv32, y: bv32, sb: bv32, n: nat)
    requires n < 7 && x & 63 <= LowCap(n) && y == x + sb && sb <= 8
    ensures EvenPlane(y) == EvenPlane(x)
    ensures OddPlane(y) == OddPlane(x)
    ensures y & 63 <= LowCap(n + 1)
  {
    LowNewStep(x, y, sb, n);
    CapNext(n);
    PlanesNew(x, y, sb, LowCap(n));
  }

  lemma RepWord(a: bv32, b: bv32, S: set<int>)
    ensures Rep(a, S) && b == a ==> Rep(b, S)
  {
  }

  /** The even plane after a card of a rank already held: the card's rank
      bit k flips. */
  lemma EvenPlaneXor(p: bv32, k: bv32, h: set<int>, g: set<int>, s: int, r: int)
    ensures Rep(p, Evens(h)) && Rep(k, {r}) && g == h + {13 * s + r} &&
            0 <= s < 4 && 0 <= r < 13 && !HasCard(h, s, r) && r in Ranks(h) ==>
            Rep(p ^ k, Evens(g))
  {
    if Rep(p, Evens(h)) && Rep(k, {r}) && g == h + {13 * s + r} &&
       0 <= s < 4 && 0 <= r < 13 && !HasCard(h, s, r) && r in Ranks(h) {
      RepXor(p, k, Evens(h), {r});
      EvensOld(h, g, s, r);
    }
  }

  lemma EvenPlaneCard(x: bv32, card: bv32, h: set<int>, g: set<int>, s: int, r: int)
    requires Rep(EvenPlane(x), Evens(h)) && g == h + {13 * s + r}
    requires CardWord(card, s, r) && !HasCard(h, s, r) && r in Ranks(h)
    ensures Rep(EvenPlane(x) ^ EvenPlane(card), Evens(g))
  {
    CardRanks(card, s, r);
    EvenPlaneXor(EvenPlane(x), EvenPlane(card), h, g, s, r);
  }

  lemma EvenPlaneOld(x: bv32, y: bv32, card: bv32, h: set<int>, g: set<int>, s: int, r: int)
    requires Rep(EvenPlane(x), Evens(h)) && g == h + {13 * s + r}
    requires CardWord(card, s, r) && !HasCard(h, s, r) && r in Ranks(h)
    requires EvenPlane(y) == EvenPlane(x) ^ EvenPlane(card)
    ensures Rep(EvenPlane(y), Evens(g))
  {
    EvenPlaneCard(x, card, h, g, s, r);
    RepWord(EvenPlane(x) ^ EvenPlane(card), EvenPlane(y), Evens(g));
  }

  /** The odd plane after a card of a rank already held: the rank joins it
      when the rank was held twice. */
  lemma OddPlaneOr(t: bv32, m: bv32, card: bv32, h: set<int>, g: set<int>, s: int, r: int)
    ensures Rep(t, Odds(h)) && Rep(m, {r} * Evens(h)) && g == h + {13 * s + r} &&
            CardWord(card, s, r) && !HasCard(h, s, r) && r in Ranks(h) ==>
            Rep(t | m, Odds(g))
  {
    if Rep(t, Odds(h)) && Rep(m, {r} * Evens(h)) && g == h + {13 * s + r} &&
       CardWord(card, s, r) && !HasCard(h, s, r) && r in Ranks(h) {
      RepOr(t, m, Odds(h), {r} * Evens(h));
      OddsOld(h, g, s, r);
    }
  }

  /** The card's rank, when it is in the even plane. */
  lemma CardMeet(x: bv32, card: bv32, h: set<int>, s: int, r: int)
    ensures Rep(EvenPlane(x), Evens(h)) && CardWord(card, s, r) ==>
            Rep(EvenPlane(card) & EvenPlane(x), {r} * Evens(h))
  {
    CardRanks(card, s, r);
    RepAndIf(EvenPlane(card), EvenPlane(x), {r}, Evens(h));
  }

  lemma OddPlaneCard(x: bv32, card: bv32, h: set<int>, g: set<int>, s: int, r: int)
    requires Rep(EvenPlane(x), Evens(h)) && Rep(OddPlane(x), Odds(h)) && g == h + {13 * s + r}
    requires CardWord(card, s, r) && !HasCard(h, s, r) && r in Ranks(h)
    ensures Rep(OddPlane(x) | (EvenPlane(card) & EvenPlane(x)), Odds(g))
  {
    CardMeet(x, card, h, s, r);
    OddPlaneOr(OddPlane(x), EvenPlane(card) & EvenPlane(x), card, h, g, s, r);
  }

  lemma OddPlaneOld(x: bv32, y: bv32, card: bv32, h: set<int>, g: set<int>, s: int, r: int)
    requires Rep(EvenPlane(x), Evens(h)) && Rep(OddPlane(x), Odds(h)) && g == h + {13 * s + r}
    requires CardWord(card, s, r) && !HasCard(h, s, r) && r in Ranks(h)
    requires OddPlane(y) == OddPlane(x) | (EvenPlane(card) & EvenPlane(x))
    ensures Rep(OddPlane(y), Odds(g))
  {
    OddPlaneCard(x, card, h, g, s, r);
    RepWord(OddPlane(x) | (EvenPlane(card) & EvenPlane(x)), OddPlane(y), Odds(g));
  }

  /** The planes of the count word after a card of a rank already held. */
  lemma CountFactsOld(x: bv32, y: bv32, card: bv32, h: set<int>, g: set<int>, s: int, r: int)
    requires CountFacts(x, h) && |h| < 7 && g == h + {13 * s + r}
    requires CardWord(card, s, r) && !HasCard(h, s, r) && r in Ranks(h)
    requires EvenPlane(y) == EvenPlane(x) ^ EvenPlane(card)
    requires OddPlane(y) == OddPlane(x) | (EvenPlane(card) & EvenPlane(x))
    requires y & 63 <= LowCap(|h| + 1)
    ensures CountFacts(y, g)
  {
    EvenPlaneOld(x, y, card, h, g, s, r);
    OddPlaneOld(x, y, card, h, g, s, r);
    SizeAdd(h, g, s, r);
  }

  /** The planes of the count word after a card of a new rank. */
  lemma CountFactsNew(x: bv32, y: bv32, h: set<int>, g: set<int>, s: int, r: int)
    requires CountFacts(x, h) && |h| < 7 && g == h + {13 * s + r}
    requires 0 <= s < 4 && 0 <= r < 13 && !HasCard(h, s, r) && r !in Ranks(h)
    requires EvenPlane(y) == EvenPlane(x) && OddPlane(y) == OddPlane(x)
    requires y & 63 <= LowCap(|h| + 1)
    ensures CountFacts(y, g)
  {
    EvensNew(h, s, r);
    OddsNew(h, s, r);
    SizeAdd(h, g, s, r);
  }

  /** The count word after a card of a rank already held: the whole card
      word is added. */
  lemma CountOld(x: bv32, y: bv32, card: bv32, h: set<int>, g: set<int>, s: int, r: int)
    requires CountFacts(x, h) && |h| < 7 && y == x + card && g == h + {13 * s + r}
    requires CardWord(card, s, r) && !HasCard(h, s, r) && r in Ranks(h)
    ensures CountFacts(y, g)
  {
    CardBits(card, s, r);
    HeldRoom(card, EvenPlane(x), OddPlane(x), h, s, r);
    CountWordOld(x, y, card, |h|);
    CountFactsOld(x, y, card, h, g, s, r);
  }

  /** The count word after a card of a new rank: only its suit bit is added,
      the rank bit being taken back by the or into slot 3. */
  lemma CountNew(x: bv32, y: bv32, card: bv32, sb: bv32, h: set<int>, g: set<int>, s: int, r: int)
    requires CountFacts(x, h) && |h| < 7 && sb == card & 15 && y == x + sb && g == h + {13 * s + r}
    requires CardWord(card, s, r) && !HasCard(h, s, r) && r !in Ranks(h)
    ensures CountFacts(y, g)
  {
    CardBits(card, s, r);
    CountWordNew(x, y, sb, |h|);
    CountFactsNew(x, y, h, g, s, r);
  }
}
