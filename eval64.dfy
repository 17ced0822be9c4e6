// The words of the 64-bit evaluator (64bit/eval.c): card words, the five-word
// hand accumulator, the bit-gather that packs a rank word into a dense mask,
// and the two bit loops of the evaluation (keep the highest bit, clear the
// lowest bits), each with what it means on rank sets.
//
// A card word has the rank bit 8 + 4 * rank and the suit bit 1 << suit. The
// hand is five words: slots 1, 2, 4 and 0 hold suits 0, 1, 2 and 3 (the slot is
// the card's suit bits & 7): the sum of that suit's rank bits plus its card
// count in the low nibble. Slot 3 is the or of all the cards. The five words
// are passed around as five bv64 values.

module Eval64 {

  import opened RankSets
  import opened Cards
  import opened Words64
  import Dense

  /* ---------------------------------------------------------------- cards */

  /** The card word of card index i (makecard). */
  function MakeCard(i: int): bv64
    requires IsCard(i)
  {
    ((1 as bv64) << (4 * (i % 13) + 8)) | ((1 as bv64) << (i / 13))
  }

  /** The suit bit of suit s: 1 << s. */
  function SuitBit(s: int): bv64
    requires 0 <= s < 4
  {
    if s == 0 then 1 else if s == 1 then 2 else if s == 2 then 4 else 8
  }

  /** card is the word of the card of suit s and rank r: the bit of the rank
      above the bit of the suit. */
  ghost predicate CardWord(card: bv64, s: int, r: int)
  {
    0 <= s < 4 && 0 <= r < 13 && Rep(card & -16, {r}) && card & 0xF == SuitBit(s)
  }

  lemma OrParts(a: bv64, b: bv64)
    requires a & 0xF == 0 && b < 16
    ensures (a | b) & -16 == a && (a | b) & 0xF == b
  {
  }

  lemma SuitShift(s: int)
    requires 0 <= s < 4
    ensures (1 as bv64) << s == SuitBit(s)
  {
    assert s == 0 || s == 1 || s == 2 || s == 3;
  }

  /** makecard builds the word of its card: rank i % 13, suit i / 13. */
  lemma MakeCardWord(i: int)
    requires IsCard(i)
    ensures CardWord(MakeCard(i), i / 13, i % 13)
  {
    RankBitRep(i % 13);
    SuitShift(i / 13);
    OrParts(RankBit(i % 13), SuitBit(i / 13));
  }

  /** A card word names one suit and one rank. */
  lemma CardWordInjective(card: bv64, s: int, r: int, t: int, q: int)
    requires CardWord(card, s, r) && CardWord(card, t, q)
    ensures s == t && r == q
  {
    assert r in {r} && q in {q};
  }

  /** The 52 card words are distinct. */
  lemma MakeCardInjective(i: int, j: int)
    requires IsCard(i) && IsCard(j) && MakeCard(i) == MakeCard(j)
    ensures i == j
  {
    MakeCardWord(i);
    MakeCardWord(j);
    CardWordInjective(MakeCard(i), i / 13, i % 13, j / 13, j % 13);
  }

  /** 2 of suit 0, ace of suit 0, 5 of suit 1 and queen of suit 3. */
  lemma MakeCardExamples()
    ensures MakeCard(0) == 0x101
    ensures MakeCard(12) == 0x0100000000000001
    ensures MakeCard(16) == 0x100002
    ensures MakeCard(49) == 0x0001000000000008
  {
  }

  /* --------------------------------------------------------- accumulator */

  /** The slot addcard picks for a card (card & 7) is the slot of the card's suit. */
  lemma CardWordSlot(card: bv64, s: int, r: int)
    requires CardWord(card, s, r)
    ensures (card & 7) as int == SlotOf(s)
  {
    assert card & 7 == SuitBit(s) & 7;
  }

  /** x is the slot of suit s of hand h: its ranks, and its count in the low nibble. */
  ghost predicate SlotHolds(x: bv64, h: set<int>, s: int)
  {
    Rep(x & -16, SuitRanks(h, s)) && x & 0xF == Nib(SuitSize(h, s))
  }

  /** y is a nibble whose bits 1, 2, 4, 8 are the flags a, b, c, d. */
  predicate Flags(y: bv64, a: bool, b: bool, c: bool, d: bool)
  {
    y & !0xF == 0 && (y & 1 != 0 <==> a) && (y & 2 != 0 <==> b) &&
    (y & 4 != 0 <==> c) && (y & 8 != 0 <==> d)
  }

  /** y has exactly the suit bits of the suits present in h. */
  ghost predicate SuitsHeld(y: bv64, h: set<int>)
  {
    Flags(y, SuitRanks(h, 0) != {}, SuitRanks(h, 1) != {}, SuitRanks(h, 2) != {}, SuitRanks(h, 3) != {})
  }

  /** The five words w0 .. w4 are the accumulator of the cards of h. */
  ghost predicate Accumulates(w0: bv64, w1: bv64, w2: bv64, w3: bv64, w4: bv64, h: set<int>)
  {
    SlotHolds(w1, h, 0) && SlotHolds(w2, h, 1) &&
    SlotHolds(w4, h, 2) && SlotHolds(w0, h, 3) &&
    Rep(w3 & -16, Ranks(h)) && SuitsHeld(w3 & 0xF, h)
  }

  /** A slot word after addcard of card: the card's rank bit added and one
      more card counted in the low nibble. */
  function Counted(w: bv64, card: bv64): bv64
  {
    w + ((card & -16) + 1)
  }

  /** addcard: count the card in its suit's slot (card & 7) and or it into
      slot 3; the other slots keep their words. The requires is narrower
      than the C macro, which takes any word: it admits the low bits 1, 2, 4
      and 0 that every card word has (CardWordSlot, MakeCardSlot) and leaves
      out a word whose low bits name slot 3 or lie past the array. */
  method AddCard(hand: array<bv64>, card: bv64)
    requires hand.Length == 5 && (card & 7 == 0 || card & 7 == 1 || card & 7 == 2 || card & 7 == 4)
    modifies hand
    ensures hand[(card & 7) as int] == Counted(old(hand[(card & 7) as int]), card)
    ensures hand[3] == old(hand[3]) | card
    ensures forall j :: 0 <= j < 5 && j != (card & 7) as int && j != 3 ==> hand[j] == old(hand[j])
  {
    hand[card & 7] := Counted(hand[card & 7], card);
    hand[3] := hand[3] | card;
  }

  lemma EmptySlot(s: int)
    requires 0 <= s < 4
    ensures SlotHolds(0, {}, s)
  {
    NoSuitRanks(s);
    assert Rep(0, {});
  }

  /** The zeroed words stand for the empty hand. */
  lemma EmptyAccumulates()
    ensures Accumulates(0, 0, 0, 0, 0, {})
  {
    EmptySlot(0);
    EmptySlot(1);
    EmptySlot(2);
    EmptySlot(3);
    assert Ranks({}) == {};
    assert Rep(0, {});
  }

  /** Adding a rank bit and one to a slot adds the rank ... */
  lemma SlotBump(v: bv64, S: set<int>, k: bv64, r: int)
    requires Rep(v & -16, S) && Rep(k, {r}) && r !in S && v & 0xF < 15
    ensures Rep((v + (k + 1)) & -16, S + {r})
  {
  }

  /** ... and counts it in the low nibble. */
  lemma CountBump(v: bv64, k: bv64, n: nat)
    requires k & 0xF == 0 && v & 0xF == Nib(n) && n < 15
    ensures (v + (k + 1)) & 0xF == Nib(n + 1)
  {
    NibBelow(n);
  }

  lemma NibBelow(k: nat)
    requires k < 15
    ensures Nib(k) < 15
  {
    NibSmall(k);
  }

  /** The ranks of a slot after adding the bit of a new rank. */
  lemma SlotRanks(v: bv64, S: set<int>, k: bv64, r: int)
    requires Rep(v & -16, S) && Rep(k, {r}) && IsRankSet(S) && 0 <= r < 13 && r !in S
    requires v & 0xF == Nib(|S|)
    ensures Rep((v + (k + 1)) & -16, S + {r})
  {
    RankSetSize(S + {r});
    NibBelow(|S|);
    SlotBump(v, S, k, r);
  }

  /** The counter of a suit's slot counts one more rank. */
  lemma CountAdd(v: bv64, k: bv64, S: set<int>, r: int)
    requires k & 0xF == 0 && v & 0xF == Nib(|S|) && IsRankSet(S) && 0 <= r < 13 && r !in S
    ensures (v + (k + 1)) & 0xF == Nib(|S + {r}|)
  {
    RankSetSize(S + {r});
    assert |S + {r}| == |S| + 1;
    CountBump(v, k, |S|);
  }

  /** The counter of a slot after adding the bit of a new rank. */
  lemma SlotCount(v: bv64, S: set<int>, k: bv64, r: int)
    requires Rep(v & -16, S) && Rep(k, {r}) && IsRankSet(S) && 0 <= r < 13 && r !in S
    requires v & 0xF == Nib(|S|)
    ensures (v + (k + 1)) & 0xF == Nib(|S + {r}|)
  {
    RepLow(k, {r});
    CountAdd(v, k, S, r);
  }

  /** addcard's sum in the card's own slot adds the card to that suit. */
  lemma SlotAdd(v: bv64, h: set<int>, s: int, r: int, card: bv64)
    requires CardWord(card, s, r) && !HasCard(h, s, r) && SlotHolds(v, h, s)
    ensures SlotHolds(v + ((card & -16) + 1), h + {13 * s + r}, s)
  {
    SuitRanksAdd(h, s, r, s);
    SlotRanks(v, SuitRanks(h, s), card & -16, r);
    SlotCount(v, SuitRanks(h, s), card & -16, r);
  }

  /** The other slots still hold their suits. */
  lemma SlotKeep(v: bv64, h: set<int>, s: int, r: int, t: int)
    requires 0 <= s < 4 && 0 <= r < 13 && 0 <= t < 4 && t != s && SlotHolds(v, h, t)
    ensures SlotHolds(v, h + {13 * s + r}, t)
  {
    SuitRanksAdd(h, s, r, t);
  }

  lemma RanksAdd(h: set<int>, s: int, r: int)
    requires 0 <= s < 4 && 0 <= r < 13
    ensures Ranks(h + {13 * s + r}) == Ranks(h) + {r}
  {
    SuitRanksAdd(h, s, r, 0);
    SuitRanksAdd(h, s, r, 1);
    SuitRanksAdd(h, s, r, 2);
    SuitRanksAdd(h, s, r, 3);
  }

  lemma OrLow(v: bv64, card: bv64)
    ensures (v | card) & 0xF == (v & 0xF) | (card & 0xF)
  {
  }

  /** Or-ing in the suit bit of suit s raises flag s. */
  lemma FlagsOr(y: bv64, a: bool, b: bool, c: bool, d: bool, s: int)
    requires Flags(y, a, b, c, d) && 0 <= s < 4
    ensures Flags(y | SuitBit(s), a || s == 0, b || s == 1, c || s == 2, d || s == 3)
  {
  }

  lemma SuitPresentAdd(h: set<int>, s: int, r: int, t: int)
    requires 0 <= s < 4 && 0 <= r < 13 && 0 <= t < 4
    ensures (SuitRanks(h + {13 * s + r}, t) != {}) == (SuitRanks(h, t) != {} || t == s)
  {
    SuitRanksAdd(h, s, r, t);
  }

  /** Or-ing in a card word adds its rank ... */
  lemma PresenceRanks(v: bv64, card: bv64, R: set<int>, r: int)
    requires Rep(v & -16, R) && Rep(card & -16, {r})
    ensures Rep((v | card) & -16, R + {r})
  {
  }

  /** ... and raises the flag of its suit. */
  lemma PresenceFlags(v: bv64, card: bv64, a: bool, b: bool, c: bool, d: bool, s: int)
    requires Flags(v & 0xF, a, b, c, d) && 0 <= s < 4 && card & 0xF == SuitBit(s)
    ensures Flags((v | card) & 0xF, a || s == 0, b || s == 1, c || s == 2, d || s == 3)
  {
    OrLow(v, card);
    FlagsOr(v & 0xF, a, b, c, d, s);
  }

  /** addcard's or into slot 3 adds the card's rank ... */
  lemma PresenceAddRanks(v: bv64, h: set<int>, s: int, r: int, card: bv64)
    requires CardWord(card, s, r) && Rep(v & -16, Ranks(h))
    ensures Rep((v | card) & -16, Ranks(h + {13 * s + r}))
  {
    PresenceRanks(v, card, Ranks(h), r);
    RanksAdd(h, s, r);
  }

  /** ... and its suit. */
  lemma PresenceAddSuits(v: bv64, h: set<int>, s: int, r: int, card: bv64)
    requires CardWord(card, s, r) && SuitsHeld(v & 0xF, h)
    ensures SuitsHeld((v | card) & 0xF, h + {13 * s + r})
  {
    PresenceFlags(v, card, SuitRanks(h, 0) != {}, SuitRanks(h, 1) != {}, SuitRanks(h, 2) != {},
      SuitRanks(h, 3) != {}, s);
    SuitPresentAdd(h, s, r, 0);
    SuitPresentAdd(h, s, r, 1);
    SuitPresentAdd(h, s, r, 2);
    SuitPresentAdd(h, s, r, 3);
  }

  /** addcard of the word of a new card of suit 0, 1, 2 or 3 (slot 1, 2, 4 or
      0) turns the accumulator of h into that of h with the card. */
  lemma AddSuit0(w0: bv64, w1: bv64, w2: bv64, w3: bv64, w4: bv64, h: set<int>, s: int, r: int, card: bv64)
    requires s == 0 && CardWord(card, s, r) && !HasCard(h, s, r) && Accumulates(w0, w1, w2, w3, w4, h)
    ensures Accumulates(w0, Counted(w1, card), w2, w3 | card, w4, h + {13 * s + r})
  {
    PresenceAddRanks(w3, h, s, r, card);
    PresenceAddSuits(w3, h, s, r, card);
    SlotAdd(w1, h, s, r, card);
    SlotKeep(w2, h, s, r, 1);
    SlotKeep(w4, h, s, r, 2);
    SlotKeep(w0, h, s, r, 3);
  }

  lemma AddSuit1(w0: bv64, w1: bv64, w2: bv64, w3: bv64, w4: bv64, h: set<int>, s: int, r: int, card: bv64)
    requires s == 1 && CardWord(card, s, r) && !HasCard(h, s, r) && Accumulates(w0, w1, w2, w3, w4, h)
    ensures Accumulates(w0, w1, Counted(w2, card), w3 | card, w4, h + {13 * s + r})
  {
    PresenceAddRanks(w3, h, s, r, card);
    PresenceAddSuits(w3, h, s, r, card);
    SlotKeep(w1, h, s, r, 0);
    SlotAdd(w2, h, s, r, card);
    SlotKeep(w4, h, s, r, 2);
    SlotKeep(w0, h, s, r, 3);
  }

  lemma AddSuit2(w0: bv64, w1: bv64, w2: bv64, w3: bv64, w4: bv64, h: set<int>, s: int, r: int, card: bv64)
    requires s == 2 && CardWord(card, s, r) && !HasCard(h, s, r) && Accumulates(w0, w1, w2, w3, w4, h)
    ensures Accumulates(w0, w1, w2, w3 | card, Counted(w4, card), h + {13 * s + r})
  {
    PresenceAddRanks(w3, h, s, r, card);
    PresenceAddSuits(w3, h, s, r, card);
    SlotKeep(w1, h, s, r, 0);
    SlotKeep(w2, h, s, r, 1);
    SlotAdd(w4, h, s, r, card);
    SlotKeep(w0, h, s, r, 3);
  }

  lemma AddSuit3(w0: bv64, w1: bv64, w2: bv64, w3: bv64, w4: bv64, h: set<int>, s: int, r: int, card: bv64)
    requires s == 3 && CardWord(card, s, r) && !HasCard(h, s, r) && Accumulates(w0, w1, w2, w3, w4, h)
    ensures Accumulates(Counted(w0, card), w1, w2, w3 | card, w4, h + {13 * s + r})
  {
    PresenceAddRanks(w3, h, s, r, card);
    PresenceAddSuits(w3, h, s, r, card);
    SlotKeep(w1, h, s, r, 0);
    SlotKeep(w2, h, s, r, 1);
    SlotKeep(w4, h, s, r, 2);
    SlotAdd(w0, h, s, r, card);
  }

  /** makecard(i) & 7 is the slot of the card's suit. */
  lemma MakeCardSlot(i: int)
    requires IsCard(i)
    ensures (MakeCard(i) & 7) as int == SlotOf(i / 13)
  {
    MakeCardWord(i);
    CardWordSlot(MakeCard(i), i / 13, i % 13);
  }

  /** AddCard with the word of a new card of suit s and rank r: the words b0
      .. b4 after it, slot card & 7 counting the card, hold h with it. */
  lemma AddWordAccumulates(w0: bv64, w1: bv64, w2: bv64, w3: bv64, w4: bv64, h: set<int>, s: int, r: int,
                           card: bv64, b0: bv64, b1: bv64, b2: bv64, b3: bv64, b4: bv64)
    requires Accumulates(w0, w1, w2, w3, w4, h) && CardWord(card, s, r) && !HasCard(h, s, r)
    requires b0 == (if card & 7 == 0 then Counted(w0, card) else w0)
    requires b1 == (if card & 7 == 1 then Counted(w1, card) else w1)
    requires b2 == (if card & 7 == 2 then Counted(w2, card) else w2)
    requires b3 == w3 | card
    requires b4 == (if card & 7 == 4 then Counted(w4, card) else w4)
    ensures Accumulates(b0, b1, b2, b3, b4, h + {13 * s + r})
  {
    CardWordSlot(card, s, r);
    if s == 0 {
      AddSuit0(w0, w1, w2, w3, w4, h, s, r, card);
    } else if s == 1 {
      AddSuit1(w0, w1, w2, w3, w4, h, s, r, card);
    } else if s == 2 {
      AddSuit2(w0, w1, w2, w3, w4, h, s, r, card);
    } else {
      AddSuit3(w0, w1, w2, w3, w4, h, s, r, card);
    }
  }

  lemma Split(x: bv64)
    ensures x == (x & -16) | (x & 0xF)
  {
  }

  lemma SlotUnique(x: bv64, y: bv64, h: set<int>, s: int)
    requires SlotHolds(x, h, s) && SlotHolds(y, h, s)
    ensures x == y
  {
    RepUnique(x & -16, y & -16, SuitRanks(h, s));
    Split(x);
    Split(y);
  }

  /** A word is fixed by its ranks and its suit flags. */
  lemma WordUnique(x: bv64, y: bv64, S: set<int>, a: bool, b: bool, c: bool, d: bool)
    requires Rep(x & -16, S) && Flags(x & 0xF, a, b, c, d)
    requires Rep(y & -16, S) && Flags(y & 0xF, a, b, c, d)
    ensures x == y
  {
    RepUnique(x & -16, y & -16, S);
    Split(x);
    Split(y);
  }

  lemma PresenceUnique(x: bv64, y: bv64, h: set<int>)
    requires Rep(x & -16, Ranks(h)) && SuitsHeld(x & 0xF, h)
    requires Rep(y & -16, Ranks(h)) && SuitsHeld(y & 0xF, h)
    ensures x == y
  {
    WordUnique(x, y, Ranks(h), SuitRanks(h, 0) != {}, SuitRanks(h, 1) != {},
      SuitRanks(h, 2) != {}, SuitRanks(h, 3) != {});
  }

  /** Only one accumulator stands for a given hand, whatever the order in which
      its cards were added. */
  lemma AccumulatesUnique(v0: bv64, v1: bv64, v2: bv64, v3: bv64, v4: bv64,
                          w0: bv64, w1: bv64, w2: bv64, w3: bv64, w4: bv64, h: set<int>)
    requires Accumulates(v0, v1, v2, v3, v4, h) && Accumulates(w0, w1, w2, w3, w4, h)
    ensures v0 == w0 && v1 == w1 && v2 == w2 && v3 == w3 && v4 == w4
  {
    SlotUnique(v0, w0, h, 3);
    SlotUnique(v1, w1, h, 0);
    SlotUnique(v2, w2, h, 1);
    SlotUnique(v4, w4, h, 2);
    PresenceUnique(v3, w3, h);
  }

  /* ------------------------------------------------------------ compress */

  /** compress: gather the rank bits 8 + 4r into bit r of a dense mask. */
  function Compress(card: bv64): bv32
  {
    var c1 := (card | (card >> 3)) & 0x0303030303030303;
    var c2 := (c1 | (c1 >> 6)) & 0x000f000f000f000f;
    var c3 := (c2 | (c2 >> 12)) & 0x000000ff000000ff;
    var c4 := (c3 | (c3 >> 24)) & 0x000000000000ffff;
    (c4 as bv32) >> 2
  }

  /** Compress keeps the ranks of a rank word and drops the low byte (the suit
      bits, the counters and the copy of the ace at position -1). */
  lemma CompressRep(x: bv64, S: set<int>)
    requires Rep(x & -16, S)
    ensures Dense.Rep(Compress(x), S - {-1})
  {
  }

  lemma CompressMask(x: bv64, S: set<int>)
    requires Rep(x & -16, S) && IsRankSet(S)
    ensures Compress(x) == Dense.Mask(S)
  {
    CompressRep(x, S);
    assert S - {-1} == S;
    Dense.MaskOf(Compress(x), S);
  }

  /** A word with no low bits compresses the same way. */
  lemma CompressWord(x: bv64, S: set<int>)
    requires Rep(x, S) && IsRankSet(S)
    ensures Compress(x) == Dense.Mask(S)
  {
    RepLow(x, S);
    assert x & -16 == x;
    CompressMask(x, S);
  }

  /* -------------------------------------------------------- the bit loops */

  lemma Shrinks(x: bv64)
    requires x != 0
    ensures x & (x - 1) < x
  {
  }

  /** The highest set bit of x (x itself when it has at most one bit): what
      while ((temp = kicker & (kicker - 1))) kicker = temp; leaves. */
  function KeepTop(x: bv64): bv64
    decreases x
  {
    if x & (x - 1) == 0 then x
    else
      Shrinks(x);
      KeepTop(x & (x - 1))
  }

  /** x with its n lowest set bits cleared (n rounds of x &= x - 1). */
  function ClearLow(x: bv64, n: nat): bv64
    decreases n
  {
    if n == 0 then x else ClearLow(x & (x - 1), n - 1)
  }

  /** One more round clears the next lowest bit of what n rounds left. */
  lemma {:induction false} ClearLowStep(x: bv64, n: nat)
    ensures ClearLow(x, n + 1) == ClearLow(x, n) & (ClearLow(x, n) - 1)
    decreases n
  {
    if n > 0 {
      ClearLowStep(x & (x - 1), n - 1);
    }
  }

  /** Below a non-empty rank word the low bits are cleared first. */
  lemma LowFirst(x: bv64, n: bv64)
    requires x & 0xF == 0 && x != 0 && 0 < n < 16
    ensures (x | n) & ((x | n) - 1) == x | (n & (n - 1))
    ensures x | (n & (n - 1)) != 0
  {
  }

  lemma Below16(n: bv64)
    requires n < 16
    ensures Rep(n & -16, {})
  {
  }

  /** KeepTop of a word of positions is the word of the highest one. */
  lemma {:induction false} KeepTopRanks(x: bv64, S: set<int>)
    requires Rep(x, S) && S != {}
    ensures Rep(KeepTop(x), Top(S))
    decreases |S|
  {
    var m := Lowest(S);
    RepClear(x, S, m);
    RepZero(x & (x - 1), S - {m});
    if S - {m} == {} {
      SingleTop(S, m);
      assert S == {m};
    } else {
      TopDropLowest(S, m);
      KeepTopRanks(x & (x - 1), S - {m});
    }
  }

  /** A word of at most one bit is its own top. */
  lemma KeepTopFixed(x: bv64)
    requires x & (x - 1) == 0
    ensures KeepTop(x) == x
  {
  }

  lemma KeepTopStep(y: bv64, z: bv64)
    requires y & (y - 1) == z && z != 0
    ensures KeepTop(y) == KeepTop(z)
  {
  }

  /** One round of the loop on a rank word with suit bits below it clears
      the lowest suit bit. */
  lemma KeepTopSuitStep(x: bv64, n: bv64)
    requires x & 0xF == 0 && x != 0 && 0 < n < 16
    ensures KeepTop(x | n) == KeepTop(x | (n & (n - 1)))
  {
    LowFirst(x, n);
    KeepTopStep(x | n, x | (n & (n - 1)));
  }

  /** Bits below the lowest rank are cleared first: they do not change what
      KeepTop keeps when a rank is there. */
  lemma {:induction false} KeepTopSuits(x: bv64, n: bv64)
    requires x & 0xF == 0 && x != 0 && n < 16
    ensures KeepTop(x | n) == KeepTop(x)
    decreases n
  {
    if n != 0 {
      KeepTopSuitStep(x, n);
      Shrinks(n);
      KeepTopSuits(x, n & (n - 1));
    } else {
      assert x | n == x;
    }
  }

  /** With no rank, KeepTop keeps a low bit. */
  lemma {:induction false} KeepTopLow(n: bv64)
    requires n < 16
    ensures KeepTop(n) < 16
    decreases n
  {
    if n & (n - 1) != 0 {
      Shrinks(n);
      KeepTopLow(n & (n - 1));
    }
  }

  /** KeepTop of a rank word with suit bits below it compresses to the top
      rank (to nothing when the word has no rank). */
  lemma KeepTopRep(x: bv64, S: set<int>, n: bv64)
    requires Rep(x, S) && IsRankSet(S) && n < 16
    ensures Compress(KeepTop(x | n)) == Dense.Mask(Top(S))
  {
    RepZero(x, S);
    if S == {} {
      assert x | n == n;
      KeepTopLow(n);
      Below16(KeepTop(n));
      CompressMask(KeepTop(n), {});
    } else {
      RepLow(x, S);
      KeepTopSuits(x, n);
      KeepTopRanks(x, S);
      CompressMask(KeepTop(x), Top(S));
    }
  }

  lemma ClearEmpty(x: bv64)
    requires Rep(x, {})
    ensures Rep(x & (x - 1), {})
  {
  }

  /** ClearLow drops the n lowest positions. */
  lemma {:induction false} ClearLowRep(x: bv64, S: set<int>, n: nat)
    requires Rep(x, S)
    ensures Rep(ClearLow(x, n), DropLowest(S, n))
    decreases n
  {
    if n != 0 {
      if S == {} {
        ClearEmpty(x);
        ClearLowRep(x & (x - 1), {}, n - 1);
      } else {
        var m := Lowest(S);
        RepClear(x, S, m);
        ClearLowRep(x & (x - 1), S - {m}, n - 1);
      }
    }
  }
}
