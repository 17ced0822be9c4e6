// The 64-bit evaluator's rank layout: position p (a rank 0..12, or -1 for
// the copy of the ace below the deuce) is bit 8 + 4p, so each rank owns a
// four-bit field and the low byte is left for suit bits and card counters.
// Rep(x, S) says that x holds exactly the positions of S and nothing else; it
// is one test of a constant bit per position, and every lemma below is a
// small bit-level fact about it.

module Words64 {

  import opened RankSets

  /** The bits of the positions -1 .. 12. */
  const POSITIONS: bv64 := 0x0111111111111110

  /** x holds exactly the positions of S. */
  predicate Rep(x: bv64, S: set<int>)
  {
    IsPosSet(S) && x & !POSITIONS == 0 &&
    (x & 0x10 != 0 <==> -1 in S) &&
    (x & 0x100 != 0 <==> 0 in S) &&
    (x & 0x1000 != 0 <==> 1 in S) &&
    (x & 0x10000 != 0 <==> 2 in S) &&
    (x & 0x100000 != 0 <==> 3 in S) &&
    (x & 0x1000000 != 0 <==> 4 in S) &&
    (x & 0x10000000 != 0 <==> 5 in S) &&
    (x & 0x100000000 != 0 <==> 6 in S) &&
    (x & 0x1000000000 != 0 <==> 7 in S) &&
    (x & 0x10000000000 != 0 <==> 8 in S) &&
    (x & 0x100000000000 != 0 <==> 9 in S) &&
    (x & 0x1000000000000 != 0 <==> 10 in S) &&
    (x & 0x10000000000000 != 0 <==> 11 in S) &&
    (x & 0x100000000000000 != 0 <==> 12 in S)
  }

  lemma RepUnique(x: bv64, y: bv64, S: set<int>)
    requires Rep(x, S) && Rep(y, S)
    ensures x == y
  {}

  lemma RepZero(x: bv64, S: set<int>)
    requires Rep(x, S)
    ensures x == 0 <==> S == {}
  {
    if S != {} {
      var p := Pick(S);
    }
  }

  lemma RepOr(x: bv64, y: bv64, S: set<int>, T: set<int>)
    requires Rep(x, S) && Rep(y, T)
    ensures Rep(x | y, S + T)
  {}

  /** Exclusive or with a sub-mask removes its positions. */
  lemma RepXorSub(x: bv64, y: bv64, S: set<int>, T: set<int>)
    requires Rep(x, S) && Rep(y, T) && T <= S
    ensures Rep(x ^ y, S - T)
  {}

  /** A position word leaves the low nibble free. */
  lemma RepLow(x: bv64, S: set<int>)
    requires Rep(x, S)
    ensures x & 0xF == 0
  {}

  /** x & (x - 1) clears the lowest position. */
  lemma RepClear(x: bv64, S: set<int>, m: int)
    requires Rep(x, S) && IsLowest(m, S)
    ensures Rep(x & (x - 1), S - {m})
  {}

  /** Masking with a copy shifted up one field keeps p when p - 1 is there too. */
  lemma RepAndUp(x: bv64, y: bv64, S: set<int>, T: set<int>)
    requires Rep(x, S) && Rep(y, T)
    ensures Rep(x & (y << 4), S * Up(T))
  {}

  /** Clearing against a copy shifted down one field drops p when p + 1 is there. */
  lemma RepAndNotDown(x: bv64, y: bv64, S: set<int>, T: set<int>)
    requires Rep(x, S) && Rep(y, T)
    ensures Rep(x & !(y / 16), S - Down(T))
  {}

  /** Copying the ace (bit 56) down to bit 4 adds position -1 for an ace. */
  lemma RepAceCopy(x: bv64, S: set<int>)
    requires Rep(x, S) && IsRankSet(S)
    ensures Rep(x | ((x >> 52) & 0x10), Extended(S))
  {}

  /** The bit of rank r. */
  function RankBit(r: int): bv64
    requires 0 <= r < 13
  {
    (1 as bv64) << (4 * r + 8)
  }

  lemma RankBitLow(r: int)
    requires 0 <= r < 7
    ensures Rep(RankBit(r), {r})
  {
    assert r == 0 || r == 1 || r == 2 || r == 3 || r == 4 || r == 5 || r == 6;
  }

  lemma RankBitHigh(r: int)
    requires 7 <= r < 13
    ensures Rep(RankBit(r), {r})
  {
    assert r == 7 || r == 8 || r == 9 || r == 10 || r == 11 || r == 12;
  }

  /** The bit of rank r is the position word of {r}. */
  lemma RankBitRep(r: int)
    requires 0 <= r < 13
    ensures Rep(RankBit(r), {r})
  {
    if r < 7 {
      RankBitLow(r);
    } else {
      RankBitHigh(r);
    }
  }

  /** The number k as a word: k rounds of + 1 from zero. The card counters are
      numbers of this kind, kept in the low nibble of a word. */
  function Nib(k: nat): bv64
  {
    if k == 0 then 0 else Nib(k - 1) + 1
  }

  lemma NibTable()
    ensures Nib(0) == 0 && Nib(1) == 1 && Nib(2) == 2 && Nib(3) == 3
    ensures Nib(4) == 4 && Nib(5) == 5 && Nib(6) == 6 && Nib(7) == 7
    ensures Nib(8) == 8 && Nib(9) == 9 && Nib(10) == 10 && Nib(11) == 11
    ensures Nib(12) == 12 && Nib(13) == 13 && Nib(14) == 14 && Nib(15) == 15
  {
  }

  /** A counter below sixteen fits its nibble and compares as its number does. */
  lemma NibSmall(k: nat)
    requires k < 16
    ensures Nib(k) < 16
    ensures k < 15 ==> Nib(k) < 15
    ensures Nib(k) >= 5 <==> k >= 5
    ensures Nib(k) > 5 <==> k > 5
    ensures k < 8 ==> Nib(k) & 7 == Nib(k)
  {
    NibTable();
    assert k == 0 || k == 1 || k == 2 || k == 3 || k == 4 || k == 5 || k == 6 || k == 7 ||
      k == 8 || k == 9 || k == 10 || k == 11 || k == 12 || k == 13 || k == 14 || k == 15;
  }
}
