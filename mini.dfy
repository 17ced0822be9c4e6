// E of ace_eval_mini.c: the golfed form of the single-exit evaluator. The
// words of the hand are read as in the other 32-bit evaluators; the odd
// plane is made as 2 * e & a from the even mask, the flush scan stops at a
// counter above four, the flush trim loop keeps v equal to k at every test,
// and the masks of the result are made by the c(a) loop, shifted down by
// three at the use. The pairs line of this file tests i, the comparison the
// single-exit evaluator of ace_eval_base.c leaves out, so its branch is
// Base.PairRanks. Every path is proved to end in Pack(Classify(h)).
//
// The globals C, i and X of the source are locals here: each use of i and C
// is a separate variable whose value at the point of use is the one the
// source's global holds there.

module Mini {

  import opened RankSets
  import opened Cards
  import opened Words32
  import opened Ace32
  import opened Loops32
  import opened Bits32
  import opened Eval32
  import opened HandValues
  import opened Hand32
  import opened Tail32
  import opened Steps32
  import opened Compress32
  import Base
  import Decompress

  /** e = 0x55555540, k = h[3], a = the count word, o = 2 * e & a, t = 0,
      e &= a; then the upper branches, the big else branch and the packing. */
  method Evaluate(hand: array<bv32>, ghost h: set<int>) returns (r: bv32)
    requires hand.Length == 5 && Accumulates(hand[0], hand[1], hand[2], hand[3], hand[4], h)
    requires IsHand(h)
    ensures r == Pack(Classify(h))
  {
    var w0, w1, w2, w3, w4 := hand[0], hand[1], hand[2], hand[3], hand[4];
    var k := w3;
    var a := w0 + w1 + w2 + w4 - (k & ABOVE_SUITS);
    CountStep(w0, w1, w2, w3, w4, h, a);
    var e, o := Planes(a);
    var done, t, v;
    done, t, v, k := FullHouseOrAbove(h, w3, a, e, o);
    if !done {
      t, v, k := FlushOrBelow(hand, h, w0, w1, w2, w3, w4, a, e, o);
    }
    r := Finish(t, v, k);
  }

  /** The setup's planes: twice the even mask 0x55555540 is the odd mask, so
      o holds the pair bits and e the single bits of the count word. */
  method Planes(a: bv32) returns (e: bv32, o: bv32)
    ensures e == RANKS & a && o == ODDS & a
  {
    e := 0x55555540;
    o := (2 * e) & a;
    e := e & a;
  }

  /** c(v); v = C / 8; c(k); return t << 28 | v << 13 | C / 8; where c(a)
      gathers bit 2i of a into bit i of C. */
  method Finish(t: bv32, v0: bv32, k: bv32) returns (r: bv32)
    ensures r == Base.Packed(t, v0, k)
  {
    var C := GatherLoop(v0);
    var v := C / 8;
    C := GatherLoop(k);
    r := (t << 28) | (v << 13) | (C / 8);
  }

  /** Four of a kind, then the two kinds of full house. When none applies
      (done is false) the tests that failed are in the last postcondition. */
  method FullHouseOrAbove(ghost h: set<int>, w3: bv32, a: bv32, e: bv32, o: bv32)
    returns (done: bool, t: bv32, v: bv32, k: bv32)
    requires CountFacts(a, h) && Rep(w3 & ABOVE_SUITS, Ranks(h))
    requires e == RANKS & a && o == ODDS & a
    ensures done ==> Base.Packed(t, v, k) == Pack(Classify(h))
    ensures !done ==> e & (o / 2) == 0 && o & (o - 1) == 0 && !(e != 0 && o != 0)
  {
    done := true;
    v := e & (o / 2);
    if v != 0 {
      t, k := Base.FourOfAKind(h, w3, a, e, o, v);
      return;
    }
    NoQuadsStep(h, a, e, o);
    v := o & (o - 1);
    if v != 0 {
      t, v, k := Base.TwoTrips(h, a, o, v);
      return;
    } else if e != 0 && o != 0 {
      t, v, k := Base.TripAndPairs(h, a, o, e);
      return;
    }
    done, t, k := false, 0, w3;
  }

  /** The big else branch: the flush loop, the straight test and the
      branches below it, then the trim they share. */
  method FlushOrBelow(hand: array<bv32>, ghost h: set<int>, w0: bv32, w1: bv32, w2: bv32, w3: bv32, w4: bv32,
                      a: bv32, e: bv32, o: bv32)
    returns (t: bv32, v: bv32, k: bv32)
    requires hand.Length == 5 && hand[0] == w0 && hand[1] == w1 && hand[2] == w2 && hand[3] == w3 && hand[4] == w4
    requires SlotsHold(w0, w1, w2, w3, w4, h)
    requires IsHand(h) && CountFacts(a, h)
    requires e == RANKS & a && o == ODDS & a
    requires e & (o / 2) == 0 && o & (o - 1) == 0 && !(e != 0 && o != 0)
    ensures Base.Packed(t, v, k) == Pack(Classify(h))
  {
    Decompress.BelowPlanes(h, a, e, o);
    var found, C, i;
    t, found, C := FlushLoop(hand, h, w0, w1, w2, w3, w4);
    t, v, k, i := StraightOrBelow(h, w3, t, found, C, e, o);
    k := Base.TrimKicker(k, v, i);
  }

  /** L(4) if ((C = ((a = h[(1 << i) & 7]) >> i) & 7) > 4) { k = a; t = 5;
      break; } -- the counter of suit i, and the first suit above four
      cards. Without one, k stays h[3]. */
  method FlushLoop(hand: array<bv32>, ghost h: set<int>, w0: bv32, w1: bv32, w2: bv32, w3: bv32, w4: bv32)
    returns (t: bv32, k: bv32, C: bv32)
    requires hand.Length == 5 && hand[0] == w0 && hand[1] == w1 && hand[2] == w2 && hand[3] == w3 && hand[4] == w4
    requires SlotHolds(w1, h, 0) && SlotHolds(w2, h, 1) && SlotHolds(w4, h, 2) && SlotHolds(w0, h, 3)
    requires IsHand(h) && |h| <= 7
    ensures Scanned(h, w3, t, k, C)
  {
    t, k, C := 0, hand[3], 0;
    var i := 0;
    while i < 4
      invariant 0 <= i <= 4 && t == 0 && k == w3
      invariant forall j :: 0 <= j < i ==> SuitSize(h, j) < 5
    {
      var a;
      Base.SuitWordHolds(w0, w1, w2, w4, h, i);
      a, C := Base.SuitCounter(hand, h, w0, w1, w2, w3, w4, i);
      if C > 4 {
        k := a;
        t := 5;
        break;
      }
      i := i + 1;
    }
    if t == 0 {
      FlushNone(h);
    }
  }

  /** k &= -64; v = k | k >> 26 & 16; the straight rounds; on a straight
      t += 4 and k = v &= ~(v / 4); otherwise the branches below. */
  method StraightOrBelow(ghost h: set<int>, w3: bv32, t0: bv32, found: bv32, C: bv32,
                         e: bv32, o: bv32) returns (t: bv32, v: bv32, k: bv32, i: bv32)
    requires IsHand(h) && |h| <= 7 && BelowFullHouse(h) && Scanned(h, w3, t0, found, C)
    requires Rep(w3 & ABOVE_SUITS, Ranks(h)) && Rep(o / 2, Trips(h)) && Rep(e, Pairs(h))
    ensures Base.Packed(t, v, Base.Trim(k, v, i)) == Pack(Classify(h))
  {
    t := t0;
    k := found & SLOT_RANKS;
    ScanStep(h, w3, t, found, C, k);
    v := k | ((k >> 26) & 16);
    AceRun(k, StraightRanks(h), v);
    v, i := Base.StraightRounds(StraightRanks(h), v);
    if v != 0 {
      ghost var v4 := v;
      t := t + 4;
      v := v & !(v / 4);
      k := v;
      Base.StraightExit(h, v4, v, t, i);
    } else {
      t, v, k, i := FlushOrPairs(h, w3, t, found, k, C, e, o);
    }
  }

  /** else if (i = t) the flush trim; else if (v = o / 2) t = 3; else if (e)
      the pairs line; otherwise high card. */
  method FlushOrPairs(ghost h: set<int>, w3: bv32, t0: bv32, found: bv32, x: bv32, C0: bv32,
                      e: bv32, o: bv32) returns (t: bv32, v: bv32, k: bv32, i: bv32)
    requires IsHand(h) && |h| <= 7 && BelowFullHouse(h) && Scanned(h, w3, t0, found, C0)
    requires Rep(x, StraightRanks(h)) && HighTops(StraightRanks(h)) == {}
    requires Rep(o / 2, Trips(h)) && Rep(e, Pairs(h))
    ensures Base.Packed(t, v, Base.Trim(k, v, i)) == Pack(Classify(h))
  {
    t := t0;
    i := t;
    if i != 0 {
      ghost var n := SuitSize(h, FlushSuit(h));
      var C;
      FlushRanksLast(h, x, n);
      k, v, C := FlushTrim(x, C0, n);
      Base.FlushExit(h, x, n, k, i);
      return;
    }
    NoFlushStep(h, x);
    t, v, i := Base.PairsOrHighCard(h, x, e, o);
    k := x;
  }

  /** while ((v = k) && C-- > 5) k &= k - 1; -- the flush suit's ranks lose
      their lowest until five are left, and v is the k of the last loop test. The
      ranks never run out (the suit has n >= 5 of them), so the test on v
      only copies k. */
  method FlushTrim(k0: bv32, C0: bv32, ghost n: nat) returns (k: bv32, v: bv32, C: bv32)
    requires 5 <= n <= 7 && C0 == Counter(n)
    requires forall j :: 0 <= j < n ==> ClearLow(k0, j) != 0
    ensures k == ClearLow(k0, n - 5) && v == k && C == Counter(4)
  {
    k, C := k0, C0;
    ghost var m: nat := n;
    v := k;
    while v != 0 && C > 5
      invariant 5 <= m <= n
      invariant C == Counter(m)
      invariant k == ClearLow(k0, n - m)
      invariant v == k && v != 0
      decreases m
    {
      CounterSmall(m);
      C := C - 1;
      ghost var j := n - m;
      ghost var k1 := k;
      k := k & (k - 1);
      TrimRound(k0, j, k1, k);
      m := m - 1;
      v := k;
    }
    CounterSmall(m);
    C := C - 1;
  }

  lemma TrimRound(k0: bv32, j: nat, k: bv32, k1: bv32)
    requires k == ClearLow(k0, j) && k1 == k & (k - 1)
    ensures k1 == ClearLow(k0, j + 1)
  {
    ClearLowStep(k0, j);
  }

  /** The flush suit's ranks outlast the trim: none of the first n - 1
      clearings empties them. */
  lemma FlushRanksLast(h: set<int>, x: bv32, n: nat)
    requires FlushSuit(h) < 4 && Rep(x, StraightRanks(h)) && n == SuitSize(h, FlushSuit(h))
    ensures forall j :: 0 <= j < n ==> ClearLow(x, j) != 0
  {
    forall j | 0 <= j < n
      ensures ClearLow(x, j) != 0
    {
      FlushNonzero(h, x, n, j);
    }
  }
}
