// eval_hand and verify of 64bit/accuracy_test.c: five zero words, one
// addcard per card word makecard(c), then evaluate. The words after each
// card are the accumulator of the cards so far, so evaluate's contract gives
// the score of the whole hand.

module Hands64 {

  import opened RankSets
  import opened Cards
  import opened Eval64
  import opened HandValues
  import Evaluate64

  /** The cards of a list of card indices. */
  ghost function HandOf(cards: seq<int>): set<int>
  {
    set c | c in cards
  }

  /** Distinct card indices, at most seven of them. */
  predicate Deal(cards: seq<int>)
  {
    |cards| <= 7 && (forall i :: 0 <= i < |cards| ==> IsCard(cards[i])) &&
    (forall i, j :: 0 <= i < j < |cards| ==> cards[i] != cards[j])
  }

  /** The five words of the array, h[0] .. h[4]. */
  datatype Words = Words(w0: bv64, w1: bv64, w2: bv64, w3: bv64, w4: bv64)

  /** The words are the accumulator of the cards of h. */
  ghost predicate WordsHold(w: Words, h: set<int>)
  {
    match w
    case Words(w0, w1, w2, w3, w4) => Accumulates(w0, w1, w2, w3, w4, h)
  }

  /** The array holds the five words of the accumulator of the cards of h. */
  ghost predicate Filled(hand: array<bv64>, h: set<int>)
    reads hand
  {
    hand.Length == 5 && Accumulates(hand[0], hand[1], hand[2], hand[3], hand[4], h)
  }

  /** eval_hand / verify: h[5] = {0}; addcard(h, makecard(c)) for every
      card; evaluate(h). After each card the array is the accumulator of the
      cards so far. */
  method EvalHand(cards: seq<int>) returns (r: bv32)
    requires Deal(cards)
    ensures r == Pack(Classify(HandOf(cards)))
  {
    var hand := NewHand();
    ghost var h: set<int> := {};
    var i := 0;
    NoneDealt(cards);
    while i < |cards|
      invariant 0 <= i <= |cards| && h == HandOf(cards[..i]) && |h| == i && IsHand(h)
      invariant Filled(hand, h)
    {
      DealNext(cards, i, h);
      AddIndex(hand, h, cards[i]);
      h := h + {cards[i]};
      i := i + 1;
    }
    AllDealt(cards, i);
    r := Evaluate64.Evaluate(hand, h);
  }

  /** uint64_t h[5] = {0}; -- the words of the empty hand. */
  method NewHand() returns (hand: array<bv64>)
    ensures fresh(hand) && Filled(hand, {})
  {
    hand := new bv64[5];
    hand[0], hand[1], hand[2], hand[3], hand[4] := 0, 0, 0, 0, 0;
    EmptyFilled(hand[0], hand[1], hand[2], hand[3], hand[4]);
  }

  lemma EmptyFilled(w0: bv64, w1: bv64, w2: bv64, w3: bv64, w4: bv64)
    requires w0 == 0 && w1 == 0 && w2 == 0 && w3 == 0 && w4 == 0
    ensures Accumulates(w0, w1, w2, w3, w4, {})
  {
    EmptyAccumulates();
  }

  /** addcard(h, makecard(c)) for a card c not yet in the hand. */
  method AddIndex(hand: array<bv64>, ghost h: set<int>, c: int)
    requires Filled(hand, h) && IsCard(c) && c !in h
    modifies hand
    ensures Filled(hand, h + {c})
  {
    ghost var w := Words(hand[0], hand[1], hand[2], hand[3], hand[4]);
    var card := MakeCard(c);
    ghost var s, q := c / 13, c % 13;
    CardOf(c, card, s, q);
    ghost var b := AddWords(hand, h, card, c, s, q, w);
  }

  /** makecard(c) is the word of suit c / 13 and rank c % 13. */
  lemma CardOf(c: int, card: bv64, s: int, q: int)
    requires IsCard(c) && card == MakeCard(c) && s == c / 13 && q == c % 13
    ensures CardWord(card, s, q) && c == 13 * s + q
  {
    MakeCardWord(c);
  }

  lemma NoneDealt(cards: seq<int>)
    ensures HandOf(cards[..0]) == {}
  {
    assert forall c :: c !in cards[..0];
  }

  lemma AllDealt(cards: seq<int>, i: int)
    requires i == |cards|
    ensures HandOf(cards[..i]) == HandOf(cards)
  {
    assert cards[..i] == cards;
  }

  /** The next card is new, and the set grows by it. */
  lemma DealNext(cards: seq<int>, i: int, h: set<int>)
    requires Deal(cards) && 0 <= i < |cards| && h == HandOf(cards[..i]) && |h| == i
    ensures cards[i] !in h && IsCard(cards[i])
    ensures HandOf(cards[..i + 1]) == h + {cards[i]} && |h + {cards[i]}| == i + 1
    ensures IsHand(h) ==> IsHand(h + {cards[i]})
  {
    assert cards[..i + 1] == cards[..i] + [cards[i]];
    forall j | 0 <= j < i
      ensures cards[..i][j] != cards[i]
    {
    }
  }

  /** addcard(h, card) on the words w of the array: the words after it are
      the accumulator of the hand with the card when w was that of the hand
      without it. */
  method AddWords(hand: array<bv64>, ghost h: set<int>, card: bv64, ghost c: int, ghost s: int, ghost q: int,
                  ghost w: Words) returns (ghost b: Words)
    requires hand.Length == 5 && hand[0] == w.w0 && hand[1] == w.w1 && hand[2] == w.w2 && hand[3] == w.w3 && hand[4] == w.w4
    requires CardWord(card, s, q) && c == 13 * s + q
    modifies hand
    ensures hand[0] == b.w0 && hand[1] == b.w1 && hand[2] == b.w2 && hand[3] == b.w3 && hand[4] == b.w4
    ensures WordsHold(w, h) && c !in h ==> WordsHold(b, h + {c})
  {
    Slots(card, s, q);
    AddCard(hand, card);
    ghost var b0, b1, b2, b3, b4 := hand[0], hand[1], hand[2], hand[3], hand[4];
    AddHolds(w.w0, w.w1, w.w2, w.w3, w.w4, b0, b1, b2, b3, b4, h, s, q, card);
    SameCard(h, c, s, q);
    b := Words(b0, b1, b2, b3, b4);
  }

  /** AddWordAccumulates for the words after addcard, as an implication. */
  lemma AddHolds(w0: bv64, w1: bv64, w2: bv64, w3: bv64, w4: bv64, b0: bv64, b1: bv64, b2: bv64, b3: bv64, b4: bv64,
                 h: set<int>, s: int, q: int, card: bv64)
    ensures Accumulates(w0, w1, w2, w3, w4, h) && CardWord(card, s, q) && !HasCard(h, s, q) &&
            b0 == (if card & 7 == 0 then Counted(w0, card) else w0) &&
            b1 == (if card & 7 == 1 then Counted(w1, card) else w1) &&
            b2 == (if card & 7 == 2 then Counted(w2, card) else w2) &&
            b3 == w3 | card &&
            b4 == (if card & 7 == 4 then Counted(w4, card) else w4)
            ==> Accumulates(b0, b1, b2, b3, b4, h + {13 * s + q})
  {
    if Accumulates(w0, w1, w2, w3, w4, h) && CardWord(card, s, q) && !HasCard(h, s, q) &&
       b0 == (if card & 7 == 0 then Counted(w0, card) else w0) &&
       b1 == (if card & 7 == 1 then Counted(w1, card) else w1) &&
       b2 == (if card & 7 == 2 then Counted(w2, card) else w2) &&
       b3 == w3 | card &&
       b4 == (if card & 7 == 4 then Counted(w4, card) else w4) {
      AddWordAccumulates(w0, w1, w2, w3, w4, h, s, q, card, b0, b1, b2, b3, b4);
    }
  }

  lemma SameCard(h: set<int>, c: int, s: int, q: int)
    requires c == 13 * s + q
    ensures (c !in h) == !HasCard(h, s, q) && h + {c} == h + {13 * s + q}
  {
  }

  /** The slot named by a card word's low bits, as a bit-vector and as an index. */
  lemma Slots(card: bv64, s: int, q: int)
    requires CardWord(card, s, q)
    ensures card & 7 == 0 || card & 7 == 1 || card & 7 == 2 || card & 7 == 4
    ensures (card & 7) as int == 0 <==> card & 7 == 0
    ensures (card & 7) as int == 1 <==> card & 7 == 1
    ensures (card & 7) as int == 2 <==> card & 7 == 2
    ensures (card & 7) as int == 4 <==> card & 7 == 4
  {
    assert card & 7 == SuitBit(s) & 7;
  }
}
