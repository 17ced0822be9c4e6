// The 32-bit evaluators' rank layout (ace_eval_decompress.c, ace_eval_base.c,
// ace_eval_mini.c): position p (a rank 0..12, or -1 for the copy of the ace
// below the deuce) is bit 6 + 2p, so each rank owns a two-bit field and the
// low six bits are left for the suit bits and the suit counters.
// Rep(x, S) says that x holds exactly the positions of S and nothing else;
// every lemma below is a small bit-level fact about it.

module Words32 {

  import opened RankSets

  /** The bits of the positions -1 .. 12. */
  const POSITIONS: bv32 := 0x55555550
  /** The bits of the ranks 0 .. 12 (the evens mask of the evaluators). */
  const RANKS: bv32 := 0x55555540

  /** x holds exactly the positions of S. */
  predicate Rep(x: bv32, S: set<int>)
  {
    IsPosSet(S) && x & !POSITIONS == 0 &&
    (x & 0x10 != 0 <==> -1 in S) &&
    (x & 0x40 != 0 <==> 0 in S) &&
    (x & 0x100 != 0 <==> 1 in S) &&
    (x & 0x400 != 0 <==> 2 in S) &&
    (x & 0x1000 != 0 <==> 3 in S) &&
    (x & 0x4000 != 0 <==> 4 in S) &&
    (x & 0x10000 != 0 <==> 5 in S) &&
    (x & 0x40000 != 0 <==> 6 in S) &&
    (x & 0x100000 != 0 <==> 7 in S) &&
    (x & 0x400000 != 0 <==> 8 in S) &&
    (x & 0x1000000 != 0 <==> 9 in S) &&
    (x & 0x4000000 != 0 <==> 10 in S) &&
    (x & 0x10000000 != 0 <==> 11 in S) &&
    (x & 0x40000000 != 0 <==> 12 in S)
  }

  lemma RepZero(x: bv32, S: set<int>)
    requires Rep(x, S)
    ensures x == 0 <==> S == {}
  {
    if S != {} {
      var p := Pick(S);
    }
  }

  lemma RepOr(x: bv32, y: bv32, S: set<int>, T: set<int>)
    requires Rep(x, S) && Rep(y, T)
    ensures Rep(x | y, S + T)
  {}

  lemma RepAnd(x: bv32, y: bv32, S: set<int>, T: set<int>)
    requires Rep(x, S) && Rep(y, T)
    ensures Rep(x & y, S * T)
  {}

  /** Exclusive or with a sub-mask removes its positions. */
  lemma RepXorSub(x: bv32, y: bv32, S: set<int>, T: set<int>)
    requires Rep(x, S) && Rep(y, T) && T <= S
    ensures Rep(x ^ y, S - T)
  {}

  /** Or-ing in a sub-mask changes nothing. */
  lemma RepAbsorb(x: bv32, y: bv32, S: set<int>, T: set<int>)
    requires Rep(x, S) && Rep(y, T) && T <= S
    ensures x | y == x
  {}

  /** Exclusive or gives the positions in exactly one of the two. */
  lemma RepXor(x: bv32, y: bv32, S: set<int>, T: set<int>)
    requires Rep(x, S) && Rep(y, T)
    ensures Rep(x ^ y, (S - T) + (T - S))
  {}

  /** A word of ranks leaves the six low bits free. */
  lemma RepLow(x: bv32, S: set<int>)
    requires Rep(x, S) && IsRankSet(S)
    ensures x & 63 == 0
  {}

  /** x & (x - 1) clears the lowest position. */
  lemma RepClear(x: bv32, S: set<int>, m: int)
    requires Rep(x, S) && IsLowest(m, S)
    ensures Rep(x & (x - 1), S - {m})
  {}

  /** Masking with a copy moved up one field keeps p when p - 1 is there too. */
  lemma RepAndUp(x: bv32, y: bv32, S: set<int>, T: set<int>)
    requires Rep(x, S) && Rep(y, T)
    ensures Rep(x & (y * 4), S * Up(T))
  {}

  /** Clearing against a copy moved down one field drops p when p + 1 is there. */
  lemma RepAndNotDown(x: bv32, y: bv32, S: set<int>, T: set<int>)
    requires Rep(x, S) && Rep(y, T)
    ensures Rep(x & !(y / 4), S - Down(T))
  {}

  /** Copying the ace (bit 30) down to bit 4 adds position -1 for an ace. */
  lemma RepAceCopy(x: bv32, S: set<int>)
    requires Rep(x, S) && IsRankSet(S)
    ensures Rep(x | ((x >> 26) & 16), Extended(S))
  {}
}
