// The five-word hand of the 32-bit evaluators (ace_eval_decompress.c,
// ace_eval_base.c, ace_eval_mini.c) and the A macro that builds it.
//
// The A macro adds a card word to slot card & 7 and ors it into slot 3.
// Slots 1, 2, 4 and 0 hold suits 0, 1, 2 and 3: the or of their rank bits
// above bit 6, plus the suit bit once per card, so that bits suit .. suit + 2
// count the suit's cards. Slot 3 holds every rank held and the suit bits of
// the suits held. Accumulates says all of this, and also that E's count word
// h0 + h1 + h2 + h4 - (h3 & -16) has the count planes of Ace32; the step
// lemmas prove each fact again after one more card.

module Eval32 {

  import opened RankSets
  import opened Cards
  import opened Words32
  import opened Ace32
  import Dense
  import opened Bits32

  /* ------------------------------------------------------------ counters */

  /** The number k as a 32-bit word. */
  function Counter(k: nat): bv32
  {
    if k == 0 then 0 else Counter(k - 1) + 1
  }

  lemma CounterTable()
    ensures Counter(0) == 0 && Counter(1) == 1 && Counter(2) == 2 && Counter(3) == 3
    ensures Counter(4) == 4 && Counter(5) == 5 && Counter(6) == 6 && Counter(7) == 7
  {
  }

  /** A counter of at most seven cards compares as its number does. */
  lemma CounterSmall(k: nat)
    requires k <= 7
    ensures Counter(k) <= 7
    ensures Counter(k) > 4 <==> k > 4
    ensures Counter(k) >= 5 <==> k >= 5
    ensures Counter(k) > 5 <==> k > 5
  {
    CounterTable();
    assert k == 0 || k == 1 || k == 2 || k == 3 || k == 4 || k == 5 || k == 6 || k == 7;
  }

  /** The low bits of the slot of suit s holding k cards: k suit bits. */
  function Low(k: nat, s: int): bv32
    requires 0 <= s < 4
  {
    Counter(k) << s
  }

  lemma LowBound(k: nat, s: int)
    requires k <= 6 && 0 <= s < 4
    ensures Low(k, s) <= 48
  {
    CounterTable();
    assert k == 0 || k == 1 || k == 2 || k == 3 || k == 4 || k == 5 || k == 6;
  }

  lemma LowNext(k: nat, s: int)
    requires k <= 6 && 0 <= s < 4
    ensures Low(k, s) + SuitBit(s) == Low(k + 1, s)
  {
    CounterTable();
    assert k == 0 || k == 1 || k == 2 || k == 3 || k == 4 || k == 5 || k == 6;
  }

  /** The counter read back: (x >> s) & 7. */
  lemma LowRead(x: bv32, k: nat, s: int)
    requires k <= 7 && 0 <= s < 4 && x & 63 == Low(k, s)
    ensures (x >> s) & 7 == Counter(k)
  {
    CounterTable();
    assert k == 0 || k == 1 || k == 2 || k == 3 || k == 4 || k == 5 || k == 6 || k == 7;
  }

  /* --------------------------------------------------------------- slots */

  /** x is the slot of suit s of hand h: its ranks above bit 6 and its
      counter below. */
  ghost predicate SlotHolds(x: bv32, h: set<int>, s: int)
  {
    0 <= s < 4 && Rep(x & SLOT_RANKS, SuitRanks(h, s)) && x & 63 == Low(SuitSize(h, s), s)
  }

  /** y is a nibble whose bits 1, 2, 4, 8 are the flags a, b, c, d. */
  predicate Flags(y: bv32, a: bool, b: bool, c: bool, d: bool)
  {
    y & !0xF == 0 && (y & 1 != 0 <==> a) && (y & 2 != 0 <==> b) &&
    (y & 4 != 0 <==> c) && (y & 8 != 0 <==> d)
  }

  /** y has exactly the suit bits of the suits present in h. */
  ghost predicate SuitsHeld(y: bv32, h: set<int>)
  {
    Flags(y, SuitRanks(h, 0) != {}, SuitRanks(h, 1) != {}, SuitRanks(h, 2) != {}, SuitRanks(h, 3) != {})
  }

  /** The count word of E: the four suit slots added, less the ranks of slot 3. */
  function CountWord(w0: bv32, w1: bv32, w2: bv32, w3: bv32, w4: bv32): bv32
  {
    w0 + w1 + w2 + w4 - (w3 & ABOVE_SUITS)
  }

  /** Each slot of w0 .. w4 holds what A puts there for the cards of h. */
  ghost predicate SlotsHold(w0: bv32, w1: bv32, w2: bv32, w3: bv32, w4: bv32, h: set<int>)
  {
    SlotHolds(w1, h, 0) && SlotHolds(w2, h, 1) &&
    SlotHolds(w4, h, 2) && SlotHolds(w0, h, 3) &&
    Rep(w3 & ABOVE_SUITS, Ranks(h)) && SuitsHeld(w3 & 0xF, h)
  }

  /** The five words w0 .. w4 are the hand built by A from the cards of h,
      and E's count word of them has the count planes of h. */
  ghost predicate Accumulates(w0: bv32, w1: bv32, w2: bv32, w3: bv32, w4: bv32, h: set<int>)
  {
    SlotsHold(w0, w1, w2, w3, w4, h) && CountFacts(CountWord(w0, w1, w2, w3, w4), h)
  }

  /** The A macro: h[c & 7] += c, h[3] |= c; the other slots keep their
      words. The requires is narrower than the macro, which takes any word:
      it admits the low bits 1, 2, 4 and 0 that every card word has
      (CardWordSlot) and leaves out a word whose low bits name slot 3 or lie
      past the array. */
  method AddCard(hand: array<bv32>, card: bv32)
    requires hand.Length == 5 && (card & 7 == 0 || card & 7 == 1 || card & 7 == 2 || card & 7 == 4)
    modifies hand
    ensures hand[(card & 7) as int] == old(hand[(card & 7) as int]) + card
    ensures hand[3] == old(hand[3]) | card
    ensures forall j :: 0 <= j < 5 && j != (card & 7) as int && j != 3 ==> hand[j] == old(hand[j])
  {
    assert (card & 7) as int != 3;
    hand[card & 7] := hand[card & 7] + card;
    hand[3] := hand[3] | card;
  }

  /* ----------------------------------------------------- the empty hand */

  lemma EmptySlot(s: int)
    requires 0 <= s < 4
    ensures SlotHolds(0, {}, s)
  {
    NoSuitRanks(s);
    assert Rep(0, {});
    CounterTable();
  }

  /** Five zero words are the hand of no cards. */
  lemma EmptyAccumulates()
    ensures Accumulates(0, 0, 0, 0, 0, {})
  {
    EmptySlot(0);
    EmptySlot(1);
    EmptySlot(2);
    EmptySlot(3);
    assert Ranks({}) == {};
    assert Rep(0, {});
    EmptyCount();
    assert CountWord(0, 0, 0, 0, 0) == 0;
  }

  /* ------------------------------------------------------ one more card */

  lemma Disjoint(x: bv32, y: bv32, S: set<int>, T: set<int>)
    requires Rep(x, S) && Rep(y, T) && S * T == {}
    ensures x & y == 0
  {
    RepAnd(x, y, S, T);
    RepZero(x & y, S * T);
  }

  /** Adding the word of a new card of suit s to its slot. */
  lemma SlotStep(x: bv32, card: bv32, S: set<int>, s: int, r: int, k: nat)
    requires CardWord(card, s, r) && r !in S
    requires Rep(x & SLOT_RANKS, S) && x & 63 == Low(k, s) && k <= 6
    ensures Rep((x + card) & SLOT_RANKS, S + {r}) && (x + card) & 63 == Low(k + 1, s)
  {
    CardBits(card, s, r);
    LowBound(k, s);
    Disjoint(x & SLOT_RANKS, card & ABOVE_SUITS, S, {r});
    SlotRanksStep(x, card, S, r);
    SlotSumLow(x, card, SLOT_RANKS, ABOVE_SUITS);
    LowNext(k, s);
  }

  lemma SlotRanksStep(x: bv32, card: bv32, S: set<int>, r: int)
    requires Rep(x & SLOT_RANKS, S) && Rep(card & ABOVE_SUITS, {r})
    requires x & 63 <= 48 && card & 15 <= 8 && card & 0x30 == 0
    requires (x & SLOT_RANKS) & (card & ABOVE_SUITS) == 0
    ensures Rep((x + card) & SLOT_RANKS, S + {r})
  {
    SlotSumRanks(x, card, SLOT_RANKS, ABOVE_SUITS);
    RepOr(x & SLOT_RANKS, card & ABOVE_SUITS, S, {r});
  }

  lemma SuitRoom(h: set<int>, s: int)
    requires IsHand(h) && |h| < 7 && 0 <= s < 4
    ensures SuitSize(h, s) <= 6
  {
    HandSize(h);
  }

  /** A's sum in the card's own slot adds the card to that suit ... */
  lemma SlotAdd(v: bv32, h: set<int>, s: int, r: int, card: bv32)
    requires CardWord(card, s, r) && !HasCard(h, s, r) && SlotHolds(v, h, s) && IsHand(h) && |h| < 7
    ensures SlotHolds(v + card, h + {13 * s + r}, s)
  {
    SuitRanksAdd(h, s, r, s);
    SuitSizeAdd(h, s, r, s);
    SuitRoom(h, s);
    SlotStep(v, card, SuitRanks(h, s), s, r, SuitSize(h, s));
  }

  /** ... and the other slots still hold their suits. */
  lemma SlotKeep(v: bv32, h: set<int>, s: int, r: int, t: int)
    requires 0 <= s < 4 && 0 <= r < 13 && 0 <= t < 4 && t != s && SlotHolds(v, h, t) && !HasCard(h, s, r)
    ensures SlotHolds(v, h + {13 * s + r}, t)
  {
    SuitRanksAdd(h, s, r, t);
    SuitSizeAdd(h, s, r, t);
  }

  lemma RanksAdd(h: set<int>, s: int, r: int)
    requires 0 <= s < 4 && 0 <= r < 13
    ensures Ranks(h + {13 * s + r}) == Ranks(h) + {r}
  {
    SuitRanksAdd(h, s, r, 0);
    SuitRanksAdd(h, s, r, 1);
    SuitRanksAdd(h, s, r, 2);
    SuitRanksAdd(h, s, r, 3);
  }

  lemma OrLow(v: bv32, card: bv32)
    ensures (v | card) & 0xF == (v & 0xF) | (card & 0xF)
  {
  }

  /** Or-ing in the suit bit of suit s raises flag s. */
  lemma FlagsOr(y: bv32, a: bool, b: bool, c: bool, d: bool, s: int)
    requires Flags(y, a, b, c, d) && 0 <= s < 4
    ensures Flags(y | SuitBit(s), a || s == 0, b || s == 1, c || s == 2, d || s == 3)
  {
  }

  lemma SuitPresentAdd(h: set<int>, s: int, r: int, t: int)
    requires 0 <= s < 4 && 0 <= r < 13 && 0 <= t < 4
    ensures (SuitRanks(h + {13 * s + r}, t) != {}) == (SuitRanks(h, t) != {} || t == s)
  {
    SuitRanksAdd(h, s, r, t);
  }

  /** A's or into slot 3 adds the card's rank ... */
  lemma PresenceAddRanks(v: bv32, h: set<int>, s: int, r: int, card: bv32)
    requires CardWord(card, s, r) && Rep(v & ABOVE_SUITS, Ranks(h))
    ensures Rep((v | card) & ABOVE_SUITS, Ranks(h + {13 * s + r}))
  {
    OrMask(v, card, ABOVE_SUITS);
    RepOr(v & ABOVE_SUITS, card & ABOVE_SUITS, Ranks(h), {r});
    RanksAdd(h, s, r);
  }

  /** ... and its suit. */
  lemma PresenceAddSuits(v: bv32, h: set<int>, s: int, r: int, card: bv32)
    requires CardWord(card, s, r) && SuitsHeld(v & 0xF, h)
    ensures SuitsHeld((v | card) & 0xF, h + {13 * s + r})
  {
    OrLow(v, card);
    FlagsOr(v & 0xF, SuitRanks(h, 0) != {}, SuitRanks(h, 1) != {}, SuitRanks(h, 2) != {},
      SuitRanks(h, 3) != {}, s);
    SuitPresentAdd(h, s, r, 0);
    SuitPresentAdd(h, s, r, 1);
    SuitPresentAdd(h, s, r, 2);
    SuitPresentAdd(h, s, r, 3);
  }

  /* ------------------------------------------- the count word, card by card */


  /** Slot 3 keeps its ranks for a card of a rank already held ... */
  lemma HeldRankGain(w3: bv32, card: bv32, R: set<int>, r: int)
    requires Rep(w3 & ABOVE_SUITS, R) && Rep(card & ABOVE_SUITS, {r}) && r in R
    ensures (w3 | card) & ABOVE_SUITS == w3 & ABOVE_SUITS
  {
    OrMask(w3, card, ABOVE_SUITS);
    RepAbsorb(w3 & ABOVE_SUITS, card & ABOVE_SUITS, R, {r});
  }

  /** ... so the whole card word is its gain to the count word. */
  lemma HeldCardGain(w3: bv32, card: bv32, R: set<int>, r: int)
    requires Rep(w3 & ABOVE_SUITS, R) && Rep(card & ABOVE_SUITS, {r}) && r in R
    requires card & !0x5555554F == 0
    ensures card - ((w3 | card) & ABOVE_SUITS) == (card & 0x5555554F) - (w3 & ABOVE_SUITS)
  {
    HeldRankGain(w3, card, R, r);
  }

  /** For a new rank slot 3 gains the card's rank bit, so the gain is the
      suit bit alone. */
  lemma FreshCardGain(w3: bv32, card: bv32, R: set<int>, r: int)
    requires Rep(w3 & ABOVE_SUITS, R) && Rep(card & ABOVE_SUITS, {r}) && r !in R
    ensures card - ((w3 | card) & ABOVE_SUITS) == (card & 15) - (w3 & ABOVE_SUITS)
  {
    Disjoint(w3 & ABOVE_SUITS, card & ABOVE_SUITS, R, {r});
    FreshRankGain(w3, card);
  }

  /** The count word grown by the whole card, for a rank already held ... */
  lemma CountHeld(x: bv32, card: bv32, h: set<int>, s: int, r: int)
    requires CountFacts(x, h) && |h| < 7
    requires CardWord(card, s, r) && !HasCard(h, s, r) && r in Ranks(h)
    ensures CountFacts(Plus(x, card), h + {13 * s + r})
  {
    CountOld(x, Plus(x, card), card, h, h + {13 * s + r}, s, r);
  }

  /** The same with the card word's unused bits cleared, as the gain lemmas
      write it. */
  lemma CountHeldMasked(x: bv32, card: bv32, h: set<int>, s: int, r: int)
    requires CountFacts(x, h) && |h| < 7
    requires CardWord(card, s, r) && !HasCard(h, s, r) && r in Ranks(h)
    ensures CountFacts(Plus(x, card & 0x5555554F), h + {13 * s + r})
  {
    CardMasked(card, s, r);
    CountHeld(x, card & 0x5555554F, h, s, r);
  }

  /** ... and by the suit bit alone for a new rank. */
  lemma CountFresh(x: bv32, card: bv32, h: set<int>, s: int, r: int)
    requires CountFacts(x, h) && |h| < 7
    requires CardWord(card, s, r) && !HasCard(h, s, r) && r !in Ranks(h)
    ensures CountFacts(Plus(x, card & 15), h + {13 * s + r})
  {
    CountNew(x, Plus(x, card & 15), card, card & 15, h, h + {13 * s + r}, s, r);
  }

  /* The count word after A puts a new card in the club (slot 1). For a rank
     already held the gain is the card word; otherwise it is the suit bit. */

  lemma Held1(w0: bv32, w1: bv32, w2: bv32, w3: bv32, w4: bv32, h: set<int>, s: int, r: int, card: bv32)
    requires CountFacts(w0 + w1 + w2 + w4 - (w3 & ABOVE_SUITS), h) && |h| < 7
    requires CardWord(card, s, r) && !HasCard(h, s, r) && r in Ranks(h)
    requires card - ((w3 | card) & ABOVE_SUITS) == (card & 0x5555554F) - (w3 & ABOVE_SUITS)
    ensures CountFacts(w0 + (w1 + card) + w2 + w4 - ((w3 | card) & ABOVE_SUITS), h + {13 * s + r})
  {
    SumAfter1(w0, w1, w2, w3, w4, card);
    PlusGain(w0, w1, w2, w3, w4, card & 0x5555554F);
    CountHeldMasked(w0 + w1 + w2 + w4 - (w3 & ABOVE_SUITS), card, h, s, r);
  }

  lemma Fresh1(w0: bv32, w1: bv32, w2: bv32, w3: bv32, w4: bv32, h: set<int>, s: int, r: int, card: bv32)
    requires CountFacts(w0 + w1 + w2 + w4 - (w3 & ABOVE_SUITS), h) && |h| < 7
    requires CardWord(card, s, r) && !HasCard(h, s, r) && r !in Ranks(h)
    requires card - ((w3 | card) & ABOVE_SUITS) == (card & 15) - (w3 & ABOVE_SUITS)
    ensures CountFacts(w0 + (w1 + card) + w2 + w4 - ((w3 | card) & ABOVE_SUITS), h + {13 * s + r})
  {
    SumAfter1(w0, w1, w2, w3, w4, card);
    PlusGain(w0, w1, w2, w3, w4, card & 15);
    CountFresh(w0 + w1 + w2 + w4 - (w3 & ABOVE_SUITS), card, h, s, r);
  }

  lemma CountInSlot1(w0: bv32, w1: bv32, w2: bv32, w3: bv32, w4: bv32, h: set<int>, s: int, r: int, card: bv32)
    requires CountFacts(w0 + w1 + w2 + w4 - (w3 & ABOVE_SUITS), h) && Rep(w3 & ABOVE_SUITS, Ranks(h))
    requires CardWord(card, s, r) && !HasCard(h, s, r) && |h| < 7
    ensures CountFacts(w0 + (w1 + card) + w2 + w4 - ((w3 | card) & ABOVE_SUITS), h + {13 * s + r})
  {
    if r in Ranks(h) {
      CardBits(card, s, r);
      HeldCardGain(w3, card, Ranks(h), r);
      Held1(w0, w1, w2, w3, w4, h, s, r, card);
    } else {
      FreshCardGain(w3, card, Ranks(h), r);
      Fresh1(w0, w1, w2, w3, w4, h, s, r, card);
    }
  }

  /* The count word after A puts a new card in the diamond (slot 2). */

  lemma Held2(w0: bv32, w1: bv32, w2: bv32, w3: bv32, w4: bv32, h: set<int>, s: int, r: int, card: bv32)
    requires CountFacts(w0 + w1 + w2 + w4 - (w3 & ABOVE_SUITS), h) && |h| < 7
    requires CardWord(card, s, r) && !HasCard(h, s, r) && r in Ranks(h)
    requires card - ((w3 | card) & ABOVE_SUITS) == (card & 0x5555554F) - (w3 & ABOVE_SUITS)
    ensures CountFacts(w0 + w1 + (w2 + card) + w4 - ((w3 | card) & ABOVE_SUITS), h + {13 * s + r})
  {
    SumAfter2(w0, w1, w2, w3, w4, card);
    PlusGain(w0, w1, w2, w3, w4, card & 0x5555554F);
    CountHeldMasked(w0 + w1 + w2 + w4 - (w3 & ABOVE_SUITS), card, h, s, r);
  }

  lemma Fresh2(w0: bv32, w1: bv32, w2: bv32, w3: bv32, w4: bv32, h: set<int>, s: int, r: int, card: bv32)
    requires CountFacts(w0 + w1 + w2 + w4 - (w3 & ABOVE_SUITS), h) && |h| < 7
    requires CardWord(card, s, r) && !HasCard(h, s, r) && r !in Ranks(h)
    requires card - ((w3 | card) & ABOVE_SUITS) == (card & 15) - (w3 & ABOVE_SUITS)
    ensures CountFacts(w0 + w1 + (w2 + card) + w4 - ((w3 | card) & ABOVE_SUITS), h + {13 * s + r})
  {
    SumAfter2(w0, w1, w2, w3, w4, card);
    PlusGain(w0, w1, w2, w3, w4, card & 15);
    CountFresh(w0 + w1 + w2 + w4 - (w3 & ABOVE_SUITS), card, h, s, r);
  }

  lemma CountInSlot2(w0: bv32, w1: bv32, w2: bv32, w3: bv32, w4: bv32, h: set<int>, s: int, r: int, card: bv32)
    requires CountFacts(w0 + w1 + w2 + w4 - (w3 & ABOVE_SUITS), h) && Rep(w3 & ABOVE_SUITS, Ranks(h))
    requires CardWord(card, s, r) && !HasCard(h, s, r) && |h| < 7
    ensures CountFacts(w0 + w1 + (w2 + card) + w4 - ((w3 | card) & ABOVE_SUITS), h + {13 * s + r})
  {
    if r in Ranks(h) {
      CardBits(card, s, r);
      HeldCardGain(w3, card, Ranks(h), r);
      Held2(w0, w1, w2, w3, w4, h, s, r, card);
    } else {
      FreshCardGain(w3, card, Ranks(h), r);
      Fresh2(w0, w1, w2, w3, w4, h, s, r, card);
    }
  }

  /* The count word after A puts a new card in the heart (slot 4). */

  lemma Held4(w0: bv32, w1: bv32, w2: bv32, w3: bv32, w4: bv32, h: set<int>, s: int, r: int, card: bv32)
    requires CountFacts(w0 + w1 + w2 + w4 - (w3 & ABOVE_SUITS), h) && |h| < 7
    requires CardWord(card, s, r) && !HasCard(h, s, r) && r in Ranks(h)
    requires card - ((w3 | card) & ABOVE_SUITS) == (card & 0x5555554F) - (w3 & ABOVE_SUITS)
    ensures CountFacts(w0 + w1 + w2 + (w4 + card) - ((w3 | card) & ABOVE_SUITS), h + {13 * s + r})
  {
    SumAfter4(w0, w1, w2, w3, w4, card);
    PlusGain(w0, w1, w2, w3, w4, card & 0x5555554F);
    CountHeldMasked(w0 + w1 + w2 + w4 - (w3 & ABOVE_SUITS), card, h, s, r);
  }

  lemma Fresh4(w0: bv32, w1: bv32, w2: bv32, w3: bv32, w4: bv32, h: set<int>, s: int, r: int, card: bv32)
    requires CountFacts(w0 + w1 + w2 + w4 - (w3 & ABOVE_SUITS), h) && |h| < 7
    requires CardWord(card, s, r) && !HasCard(h, s, r) && r !in Ranks(h)
    requires card - ((w3 | card) & ABOVE_SUITS) == (card & 15) - (w3 & ABOVE_SUITS)
    ensures CountFacts(w0 + w1 + w2 + (w4 + card) - ((w3 | card) & ABOVE_SUITS), h + {13 * s + r})
  {
    SumAfter4(w0, w1, w2, w3, w4, card);
    PlusGain(w0, w1, w2, w3, w4, card & 15);
    CountFresh(w0 + w1 + w2 + w4 - (w3 & ABOVE_SUITS), card, h, s, r);
  }

  lemma CountInSlot4(w0: bv32, w1: bv32, w2: bv32, w3: bv32, w4: bv32, h: set<int>, s: int, r: int, card: bv32)
    requires CountFacts(w0 + w1 + w2 + w4 - (w3 & ABOVE_SUITS), h) && Rep(w3 & ABOVE_SUITS, Ranks(h))
    requires CardWord(card, s, r) && !HasCard(h, s, r) && |h| < 7
    ensures CountFacts(w0 + w1 + w2 + (w4 + card) - ((w3 | card) & ABOVE_SUITS), h + {13 * s + r})
  {
    if r in Ranks(h) {
      CardBits(card, s, r);
      HeldCardGain(w3, card, Ranks(h), r);
      Held4(w0, w1, w2, w3, w4, h, s, r, card);
    } else {
      FreshCardGain(w3, card, Ranks(h), r);
      Fresh4(w0, w1, w2, w3, w4, h, s, r, card);
    }
  }

  /* The count word after A puts a new card in the spade (slot 0). */

  lemma Held0(w0: bv32, w1: bv32, w2: bv32, w3: bv32, w4: bv32, h: set<int>, s: int, r: int, card: bv32)
    requires CountFacts(w0 + w1 + w2 + w4 - (w3 & ABOVE_SUITS), h) && |h| < 7
    requires CardWord(card, s, r) && !HasCard(h, s, r) && r in Ranks(h)
    requires card - ((w3 | card) & ABOVE_SUITS) == (card & 0x5555554F) - (w3 & ABOVE_SUITS)
    ensures CountFacts((w0 + card) + w1 + w2 + w4 - ((w3 | card) & ABOVE_SUITS), h + {13 * s + r})
  {
    SumAfter0(w0, w1, w2, w3, w4, card);
    PlusGain(w0, w1, w2, w3, w4, card & 0x5555554F);
    CountHeldMasked(w0 + w1 + w2 + w4 - (w3 & ABOVE_SUITS), card, h, s, r);
  }

  lemma Fresh0(w0: bv32, w1: bv32, w2: bv32, w3: bv32, w4: bv32, h: set<int>, s: int, r: int, card: bv32)
    requires CountFacts(w0 + w1 + w2 + w4 - (w3 & ABOVE_SUITS), h) && |h| < 7
    requires CardWord(card, s, r) && !HasCard(h, s, r) && r !in Ranks(h)
    requires card - ((w3 | card) & ABOVE_SUITS) == (card & 15) - (w3 & ABOVE_SUITS)
    ensures CountFacts((w0 + card) + w1 + w2 + w4 - ((w3 | card) & ABOVE_SUITS), h + {13 * s + r})
  {
    SumAfter0(w0, w1, w2, w3, w4, card);
    PlusGain(w0, w1, w2, w3, w4, card & 15);
    CountFresh(w0 + w1 + w2 + w4 - (w3 & ABOVE_SUITS), card, h, s, r);
  }

  lemma CountInSlot0(w0: bv32, w1: bv32, w2: bv32, w3: bv32, w4: bv32, h: set<int>, s: int, r: int, card: bv32)
    requires CountFacts(w0 + w1 + w2 + w4 - (w3 & ABOVE_SUITS), h) && Rep(w3 & ABOVE_SUITS, Ranks(h))
    requires CardWord(card, s, r) && !HasCard(h, s, r) && |h| < 7
    ensures CountFacts((w0 + card) + w1 + w2 + w4 - ((w3 | card) & ABOVE_SUITS), h + {13 * s + r})
  {
    if r in Ranks(h) {
      CardBits(card, s, r);
      HeldCardGain(w3, card, Ranks(h), r);
      Held0(w0, w1, w2, w3, w4, h, s, r, card);
    } else {
      FreshCardGain(w3, card, Ranks(h), r);
      Fresh0(w0, w1, w2, w3, w4, h, s, r, card);
    }
  }

  /* A adds a new card of suit s to the hand. */

  lemma CardWordSlot(card: bv32, s: int, r: int)
    requires CardWord(card, s, r)
    ensures (card & 7) as int == SlotOf(s)
  {
    assert card & 7 == SuitBit(s) & 7;
  }

  lemma SlotsAdd0(w0: bv32, w1: bv32, w2: bv32, w3: bv32, w4: bv32, h: set<int>, s: int, r: int, card: bv32)
    requires s == 0 && CardWord(card, s, r) && !HasCard(h, s, r) && IsHand(h) && |h| < 7
    requires SlotsHold(w0, w1, w2, w3, w4, h)
    ensures SlotsHold(w0, w1 + card, w2, w3 | card, w4, h + {13 * s + r})
  {
    PresenceAddRanks(w3, h, s, r, card);
    PresenceAddSuits(w3, h, s, r, card);
    SlotAdd(w1, h, s, r, card);
    SlotKeep(w2, h, s, r, 1);
    SlotKeep(w4, h, s, r, 2);
    SlotKeep(w0, h, s, r, 3);
  }

  /** Accumulates is its two parts. */
  lemma AccumulatesIntro(w0: bv32, w1: bv32, w2: bv32, w3: bv32, w4: bv32, h: set<int>)
    ensures SlotsHold(w0, w1, w2, w3, w4, h) && CountFacts(CountWord(w0, w1, w2, w3, w4), h) ==>
            Accumulates(w0, w1, w2, w3, w4, h)
  { }

  lemma AccumulatesElim(w0: bv32, w1: bv32, w2: bv32, w3: bv32, w4: bv32, h: set<int>)
    ensures Accumulates(w0, w1, w2, w3, w4, h) ==>
            SlotsHold(w0, w1, w2, w3, w4, h) && CountFacts(w0 + w1 + w2 + w4 - (w3 & ABOVE_SUITS), h)
  {
    CountWordSum(w0, w1, w2, w3, w4, h);
  }

  lemma CountWordSum(w0: bv32, w1: bv32, w2: bv32, w3: bv32, w4: bv32, h: set<int>)
    ensures CountFacts(CountWord(w0, w1, w2, w3, w4), h) ==>
            CountFacts(w0 + w1 + w2 + w4 - (w3 & ABOVE_SUITS), h)
  { }

  lemma CountWordFacts(w0: bv32, w1: bv32, w2: bv32, w3: bv32, w4: bv32, h: set<int>)
    ensures CountFacts(w0 + w1 + w2 + w4 - (w3 & ABOVE_SUITS), h) ==>
            CountFacts(CountWord(w0, w1, w2, w3, w4), h)
  { }

  /** Implication form of SlotsAdd0 and CountInSlot1 together. */
  lemma AddStep0(w0: bv32, w1: bv32, w2: bv32, w3: bv32, w4: bv32, h: set<int>, s: int, r: int, card: bv32)
    ensures s == 0 && CardWord(card, s, r) && !HasCard(h, s, r) && IsHand(h) && |h| < 7 &&
            SlotsHold(w0, w1, w2, w3, w4, h) &&
            CountFacts(w0 + w1 + w2 + w4 - (w3 & ABOVE_SUITS), h) ==>
            SlotsHold(w0, w1 + card, w2, w3 | card, w4, h + {13 * s + r}) && CountFacts(w0 + (w1 + card) + w2 + w4 - ((w3 | card) & ABOVE_SUITS), h + {13 * s + r})
  {
    if s == 0 && CardWord(card, s, r) && !HasCard(h, s, r) && IsHand(h) && |h| < 7 &&
       SlotsHold(w0, w1, w2, w3, w4, h) &&
       CountFacts(w0 + w1 + w2 + w4 - (w3 & ABOVE_SUITS), h) {
      SlotsAdd0(w0, w1, w2, w3, w4, h, s, r, card);
      CountInSlot1(w0, w1, w2, w3, w4, h, s, r, card);
    }
  }

  lemma AddSuit0(w0: bv32, w1: bv32, w2: bv32, w3: bv32, w4: bv32, h: set<int>, s: int, r: int, card: bv32)
    requires s == 0 && CardWord(card, s, r) && !HasCard(h, s, r) && IsHand(h) && |h| < 7
    requires Accumulates(w0, w1, w2, w3, w4, h)
    ensures Accumulates(w0, w1 + card, w2, w3 | card, w4, h + {13 * s + r})
  {
    AccumulatesElim(w0, w1, w2, w3, w4, h);
    AddStep0(w0, w1, w2, w3, w4, h, s, r, card);
    CountWordFacts(w0, w1 + card, w2, w3 | card, w4, h + {13 * s + r});
    AccumulatesIntro(w0, w1 + card, w2, w3 | card, w4, h + {13 * s + r});
  }

  lemma SlotsAdd1(w0: bv32, w1: bv32, w2: bv32, w3: bv32, w4: bv32, h: set<int>, s: int, r: int, card: bv32)
    requires s == 1 && CardWord(card, s, r) && !HasCard(h, s, r) && IsHand(h) && |h| < 7
    requires SlotsHold(w0, w1, w2, w3, w4, h)
    ensures SlotsHold(w0, w1, w2 + card, w3 | card, w4, h + {13 * s + r})
  {
    PresenceAddRanks(w3, h, s, r, card);
    PresenceAddSuits(w3, h, s, r, card);
    SlotKeep(w1, h, s, r, 0);
    SlotAdd(w2, h, s, r, card);
    SlotKeep(w4, h, s, r, 2);
    SlotKeep(w0, h, s, r, 3);
  }

  /** Implication form of SlotsAdd1 and CountInSlot2 together. */
  lemma AddStep1(w0: bv32, w1: bv32, w2: bv32, w3: bv32, w4: bv32, h: set<int>, s: int, r: int, card: bv32)
    ensures s == 1 && CardWord(card, s, r) && !HasCard(h, s, r) && IsHand(h) && |h| < 7 &&
            SlotsHold(w0, w1, w2, w3, w4, h) &&
            CountFacts(w0 + w1 + w2 + w4 - (w3 & ABOVE_SUITS), h) ==>
            SlotsHold(w0, w1, w2 + card, w3 | card, w4, h + {13 * s + r}) && CountFacts(w0 + w1 + (w2 + card) + w4 - ((w3 | card) & ABOVE_SUITS), h + {13 * s + r})
  {
    if s == 1 && CardWord(card, s, r) && !HasCard(h, s, r) && IsHand(h) && |h| < 7 &&
       SlotsHold(w0, w1, w2, w3, w4, h) &&
       CountFacts(w0 + w1 + w2 + w4 - (w3 & ABOVE_SUITS), h) {
      SlotsAdd1(w0, w1, w2, w3, w4, h, s, r, card);
      CountInSlot2(w0, w1, w2, w3, w4, h, s, r, card);
    }
  }

  lemma AddSuit1(w0: bv32, w1: bv32, w2: bv32, w3: bv32, w4: bv32, h: set<int>, s: int, r: int, card: bv32)
    requires s == 1 && CardWord(card, s, r) && !HasCard(h, s, r) && IsHand(h) && |h| < 7
    requires Accumulates(w0, w1, w2, w3, w4, h)
    ensures Accumulates(w0, w1, w2 + card, w3 | card, w4, h + {13 * s + r})
  {
    AccumulatesElim(w0, w1, w2, w3, w4, h);
    AddStep1(w0, w1, w2, w3, w4, h, s, r, card);
    CountWordFacts(w0, w1, w2 + card, w3 | card, w4, h + {13 * s + r});
    AccumulatesIntro(w0, w1, w2 + card, w3 | card, w4, h + {13 * s + r});
  }

  lemma SlotsAdd2(w0: bv32, w1: bv32, w2: bv32, w3: bv32, w4: bv32, h: set<int>, s: int, r: int, card: bv32)
    requires s == 2 && CardWord(card, s, r) && !HasCard(h, s, r) && IsHand(h) && |h| < 7
    requires SlotsHold(w0, w1, w2, w3, w4, h)
    ensures SlotsHold(w0, w1, w2, w3 | card, w4 + card, h + {13 * s + r})
  {
    PresenceAddRanks(w3, h, s, r, card);
    PresenceAddSuits(w3, h, s, r, card);
    SlotKeep(w1, h, s, r, 0);
    SlotKeep(w2, h, s, r, 1);
    SlotAdd(w4, h, s, r, card);
    SlotKeep(w0, h, s, r, 3);
  }

  /** Implication form of SlotsAdd2 and CountInSlot4 together. */
  lemma AddStep2(w0: bv32, w1: bv32, w2: bv32, w3: bv32, w4: bv32, h: set<int>, s: int, r: int, card: bv32)
    ensures s == 2 && CardWord(card, s, r) && !HasCard(h, s, r) && IsHand(h) && |h| < 7 &&
            SlotsHold(w0, w1, w2, w3, w4, h) &&
            CountFacts(w0 + w1 + w2 + w4 - (w3 & ABOVE_SUITS), h) ==>
            SlotsHold(w0, w1, w2, w3 | card, w4 + card, h + {13 * s + r}) && CountFacts(w0 + w1 + w2 + (w4 + card) - ((w3 | card) & ABOVE_SUITS), h + {13 * s + r})
  {
    if s == 2 && CardWord(card, s, r) && !HasCard(h, s, r) && IsHand(h) && |h| < 7 &&
       SlotsHold(w0, w1, w2, w3, w4, h) &&
       CountFacts(w0 + w1 + w2 + w4 - (w3 & ABOVE_SUITS), h) {
      SlotsAdd2(w0, w1, w2, w3, w4, h, s, r, card);
      CountInSlot4(w0, w1, w2, w3, w4, h, s, r, card);
    }
  }

  lemma AddSuit2(w0: bv32, w1: bv32, w2: bv32, w3: bv32, w4: bv32, h: set<int>, s: int, r: int, card: bv32)
    requires s == 2 && CardWord(card, s, r) && !HasCard(h, s, r) && IsHand(h) && |h| < 7
    requires Accumulates(w0, w1, w2, w3, w4, h)
    ensures Accumulates(w0, w1, w2, w3 | card, w4 + card, h + {13 * s + r})
  {
    AccumulatesElim(w0, w1, w2, w3, w4, h);
    AddStep2(w0, w1, w2, w3, w4, h, s, r, card);
    CountWordFacts(w0, w1, w2, w3 | card, w4 + card, h + {13 * s + r});
    AccumulatesIntro(w0, w1, w2, w3 | card, w4 + card, h + {13 * s + r});
  }

  lemma SlotsAdd3(w0: bv32, w1: bv32, w2: bv32, w3: bv32, w4: bv32, h: set<int>, s: int, r: int, card: bv32)
    requires s == 3 && CardWord(card, s, r) && !HasCard(h, s, r) && IsHand(h) && |h| < 7
    requires SlotsHold(w0, w1, w2, w3, w4, h)
    ensures SlotsHold(w0 + card, w1, w2, w3 | card, w4, h + {13 * s + r})
  {
    PresenceAddRanks(w3, h, s, r, card);
    PresenceAddSuits(w3, h, s, r, card);
    SlotKeep(w1, h, s, r, 0);
    SlotKeep(w2, h, s, r, 1);
    SlotKeep(w4, h, s, r, 2);
    SlotAdd(w0, h, s, r, card);
  }

  /** Implication form of SlotsAdd3 and CountInSlot0 together. */
  lemma AddStep3(w0: bv32, w1: bv32, w2: bv32, w3: bv32, w4: bv32, h: set<int>, s: int, r: int, card: bv32)
    ensures s == 3 && CardWord(card, s, r) && !HasCard(h, s, r) && IsHand(h) && |h| < 7 &&
            SlotsHold(w0, w1, w2, w3, w4, h) &&
            CountFacts(w0 + w1 + w2 + w4 - (w3 & ABOVE_SUITS), h) ==>
            SlotsHold(w0 + card, w1, w2, w3 | card, w4, h + {13 * s + r}) && CountFacts((w0 + card) + w1 + w2 + w4 - ((w3 | card) & ABOVE_SUITS), h + {13 * s + r})
  {
    if s == 3 && CardWord(card, s, r) && !HasCard(h, s, r) && IsHand(h) && |h| < 7 &&
       SlotsHold(w0, w1, w2, w3, w4, h) &&
       CountFacts(w0 + w1 + w2 + w4 - (w3 & ABOVE_SUITS), h) {
      SlotsAdd3(w0, w1, w2, w3, w4, h, s, r, card);
      CountInSlot0(w0, w1, w2, w3, w4, h, s, r, card);
    }
  }

  lemma AddSuit3(w0: bv32, w1: bv32, w2: bv32, w3: bv32, w4: bv32, h: set<int>, s: int, r: int, card: bv32)
    requires s == 3 && CardWord(card, s, r) && !HasCard(h, s, r) && IsHand(h) && |h| < 7
    requires Accumulates(w0, w1, w2, w3, w4, h)
    ensures Accumulates(w0 + card, w1, w2, w3 | card, w4, h + {13 * s + r})
  {
    AccumulatesElim(w0, w1, w2, w3, w4, h);
    AddStep3(w0, w1, w2, w3, w4, h, s, r, card);
    CountWordFacts(w0 + card, w1, w2, w3 | card, w4, h + {13 * s + r});
    AccumulatesIntro(w0 + card, w1, w2, w3 | card, w4, h + {13 * s + r});
  }

  /** A applied to the words of hand h gives the words of h and the new card. */
  lemma AddWordAccumulates(w0: bv32, w1: bv32, w2: bv32, w3: bv32, w4: bv32, h: set<int>, s: int, r: int,
                           card: bv32, k: int, b0: bv32, b1: bv32, b2: bv32, b3: bv32, b4: bv32)
    requires Accumulates(w0, w1, w2, w3, w4, h) && CardWord(card, s, r) && !HasCard(h, s, r)
    requires IsHand(h) && |h| < 7
    requires k == (card & 7) as int
    requires b0 == (if k == 0 then w0 + card else w0)
    requires b1 == (if k == 1 then w1 + card else w1)
    requires b2 == (if k == 2 then w2 + card else w2)
    requires b3 == w3 | card
    requires b4 == (if k == 4 then w4 + card else w4)
    ensures Accumulates(b0, b1, b2, b3, b4, h + {13 * s + r})
  {
    CardWordSlot(card, s, r);
    if s == 0 {
      AddSuit0(w0, w1, w2, w3, w4, h, s, r, card);
    } else if s == 1 {
      AddSuit1(w0, w1, w2, w3, w4, h, s, r, card);
    } else if s == 2 {
      AddSuit2(w0, w1, w2, w3, w4, h, s, r, card);
    } else {
      AddSuit3(w0, w1, w2, w3, w4, h, s, r, card);
    }
  }
}
