// Facts about 32-bit words that the 32-bit evaluators' step proofs use,
// stated over plain words and kept apart from the set-level modules.
//
// The count word of E is h0 + h1 + h2 + h4 - (h3 & -16). After A adds one
// more card, the new count word is the old one plus the card's gain: the
// whole card word for a rank already held, the suit bit alone for a new
// rank. SumAfter0 .. SumAfter4 write the new count word, for each slot the
// card can go to, as the old sum of the four slots plus the card less the
// new h3 & -16; PlusGain turns a gain less the old h3 & -16 into the old
// count word plus that gain. Sums are kept apart as Plus terms.

module Bits32 {

  /** -16: everything above the suit bits. */
  const ABOVE_SUITS: bv32 := 0xFFFFFFF0
  /** -64: everything above a suit slot's counter. */
  const SLOT_RANKS: bv32 := 0xFFFFFFC0

  /** a + b, kept as one term. */
  function Plus(a: bv32, b: bv32): bv32
  {
    a + b
  }

  /** a | b, kept as one term. */
  function Or(a: bv32, b: bv32): bv32
  {
    a | b
  }

  /** a == b, kept as one fact. */
  predicate Same(a: bv32, b: bv32)
  {
    a == b
  }

  /** A card word added to a slot whose counter is at most 48 does not carry
      into the rank bits ... (m and a are SLOT_RANKS and ABOVE_SUITS) */
  lemma SlotSumRanks(x: bv32, card: bv32, m: bv32, a: bv32)
    requires m == 0xFFFFFFC0 && a == 0xFFFFFFF0
    requires x & 63 <= 48 && card & 15 <= 8 && card & 0x30 == 0
    requires (x & m) & (card & a) == 0
    ensures (x + card) & m == (x & m) | (card & a)
  {
  }

  /** ... and adds its suit bit to the counter. */
  lemma SlotSumLow(x: bv32, card: bv32, m: bv32, a: bv32)
    requires m == 0xFFFFFFC0 && a == 0xFFFFFFF0
    requires x & 63 <= 48 && card & 15 <= 8 && card & 0x30 == 0
    requires (x & m) & (card & a) == 0
    ensures (x + card) & 63 == (x & 63) + (card & 15)
  {
  }

  lemma OrMask(v: bv32, card: bv32, m: bv32)
    ensures (v | card) & m == (v & m) | (card & m)
  {
  }

  /** Or-ing a card of a new rank into slot 3 raises h3 & -16 by the card's
      rank bit: the card less that raise is its suit bit. */
  lemma FreshRankGain(w3: bv32, card: bv32)
    requires (w3 & ABOVE_SUITS) & (card & ABOVE_SUITS) == 0
    ensures card - ((w3 | card) & ABOVE_SUITS) == (card & 15) - (w3 & ABOVE_SUITS)
  {
    RankGain(w3, card, ABOVE_SUITS);
  }

  lemma RankGain(w3: bv32, card: bv32, a: bv32)
    requires a == 0xFFFFFFF0
    requires (w3 & a) & (card & a) == 0
    ensures card - ((w3 | card) & a) == (card & 15) - (w3 & a)
  {
  }

  /** The count word after A puts the card in slot 0: the sum of the four
      slots before, plus the card less the new h3 & -16. */
  lemma SumAfter0(w0: bv32, w1: bv32, w2: bv32, w3: bv32, w4: bv32, card: bv32)
    ensures Same((w0 + card) + w1 + w2 + w4 - ((w3 | card) & ABOVE_SUITS),
      Plus(w0 + w1 + w2 + w4, card - ((w3 | card) & ABOVE_SUITS)))
  {
  }

  /** ... in slot 1 ... */
  lemma SumAfter1(w0: bv32, w1: bv32, w2: bv32, w3: bv32, w4: bv32, card: bv32)
    ensures Same(w0 + (w1 + card) + w2 + w4 - ((w3 | card) & ABOVE_SUITS),
      Plus(w0 + w1 + w2 + w4, card - ((w3 | card) & ABOVE_SUITS)))
  {
  }

  /** ... in slot 2 ... */
  lemma SumAfter2(w0: bv32, w1: bv32, w2: bv32, w3: bv32, w4: bv32, card: bv32)
    ensures Same(w0 + w1 + (w2 + card) + w4 - ((w3 | card) & ABOVE_SUITS),
      Plus(w0 + w1 + w2 + w4, card - ((w3 | card) & ABOVE_SUITS)))
  {
  }

  /** ... and in slot 4. */
  lemma SumAfter4(w0: bv32, w1: bv32, w2: bv32, w3: bv32, w4: bv32, card: bv32)
    ensures Same(w0 + w1 + w2 + (w4 + card) - ((w3 | card) & ABOVE_SUITS),
      Plus(w0 + w1 + w2 + w4, card - ((w3 | card) & ABOVE_SUITS)))
  {
  }

  /** A gain k less the old h3 & -16, added to the four slots, is the old
      count word plus k. */
  lemma PlusGain(w0: bv32, w1: bv32, w2: bv32, w3: bv32, w4: bv32, k: bv32)
    ensures Same(Plus(w0 + w1 + w2 + w4, k - (w3 & ABOVE_SUITS)),
      Plus(w0 + w1 + w2 + w4 - (w3 & ABOVE_SUITS), k))
  {
  }
}
