// The two bit loops of the 32-bit evaluators, on rank words: repeated
// x &= x - 1 (the quads kicker loop keeps the highest bit, the flush trim and
// the kicker trims clear a fixed number of the lowest ones).

module Loops32 {

  import opened RankSets
  import opened Words32
  import opened Bits32

  lemma Shrinks(x: bv32)
    requires x != 0
    ensures x & (x - 1) < x
  {
  }

  /** The highest set bit of x (x itself when it has at most one bit): what
      while (temp = kicker & kicker - 1) kicker = temp; leaves. */
  function KeepTop(x: bv32): bv32
    decreases x
  {
    if x & (x - 1) == 0 then x
    else
      Shrinks(x);
      KeepTop(x & (x - 1))
  }

  /** x with its n lowest set bits cleared (n rounds of x &= x - 1). */
  function ClearLow(x: bv32, n: nat): bv32
    decreases n
  {
    if n == 0 then x else ClearLow(x & (x - 1), n - 1)
  }

  /** x & (x - 1) keeps bits of x only ... */
  lemma ClearWithin(x: bv32, y: bv32)
    requires y & !x == 0
    ensures (y & (y - 1)) & !x == 0
  {
  }

  /** ... so KeepTop does too. */
  lemma {:induction false} KeepTopWithin(x: bv32)
    ensures KeepTop(x) & !x == 0
  {
    KeepTopInside(x, x);
  }

  lemma {:induction false} KeepTopInside(x: bv32, y: bv32)
    requires y & !x == 0
    ensures KeepTop(y) & !x == 0
    decreases y
  {
    if y & (y - 1) != 0 {
      Shrinks(y);
      ClearWithin(x, y);
      KeepTopInside(x, y & (y - 1));
      assert KeepTop(y) == KeepTop(y & (y - 1));
    } else {
      assert KeepTop(y) == y;
    }
  }

  /** One more round clears the next lowest bit of what n rounds left. */
  lemma {:induction false} ClearLowStep(x: bv32, n: nat)
    ensures ClearLow(x, n + 1) == ClearLow(x, n) & (ClearLow(x, n) - 1)
    decreases n
  {
    if n > 0 {
      ClearLowStep(x & (x - 1), n - 1);
    }
  }

  lemma ClearEmpty(x: bv32)
    requires Rep(x, {})
    ensures Rep(x & (x - 1), {})
  {
  }

  /** ClearLow drops the n lowest positions. */
  lemma {:induction false} ClearLowRep(x: bv32, S: set<int>, n: nat)
    requires Rep(x, S)
    ensures Rep(ClearLow(x, n), DropLowest(S, n))
    decreases n
  {
    if n != 0 {
      if S == {} {
        ClearEmpty(x);
        ClearLowRep(x & (x - 1), {}, n - 1);
      } else {
        var m := Lowest(S);
        RepClear(x, S, m);
        ClearLowRep(x & (x - 1), S - {m}, n - 1);
      }
    }
  }

  /** KeepTop of a word of positions is the word of the highest one. */
  lemma {:induction false} KeepTopRanks(x: bv32, S: set<int>)
    requires Rep(x, S) && S != {}
    ensures Rep(KeepTop(x), Top(S))
    decreases |S|
  {
    var m := Lowest(S);
    RepClear(x, S, m);
    RepZero(x & (x - 1), S - {m});
    if S - {m} == {} {
      SingleTop(S, m);
      assert S == {m};
    } else {
      TopDropLowest(S, m);
      KeepTopRanks(x & (x - 1), S - {m});
    }
  }

  /** A word of at most one bit is its own top. */
  lemma KeepTopFixed(x: bv32)
    requires x & (x - 1) == 0
    ensures KeepTop(x) == x
  {
  }

  lemma KeepTopStep(y: bv32, z: bv32)
    requires y & (y - 1) == z && z != 0
    ensures KeepTop(y) == KeepTop(z)
  {
  }

  /** Below a non-empty rank word the low bits are cleared first. */
  lemma LowFirst(x: bv32, n: bv32)
    requires x & 63 == 0 && x != 0 && 0 < n < 16
    ensures (x | n) & ((x | n) - 1) == x | (n & (n - 1))
    ensures x | (n & (n - 1)) != 0
  {
  }

  /** One round of the loop on a rank word with suit bits below it clears
      the lowest suit bit. */
  lemma KeepTopSuitStep(x: bv32, n: bv32)
    requires x & 63 == 0 && x != 0 && 0 < n < 16
    ensures KeepTop(x | n) == KeepTop(x | (n & (n - 1)))
  {
    LowFirst(x, n);
    KeepTopStep(x | n, x | (n & (n - 1)));
  }

  /** Bits below the lowest rank do not change what KeepTop keeps when a
      rank is there. */
  lemma {:induction false} KeepTopSuits(x: bv32, n: bv32)
    requires x & 63 == 0 && x != 0 && n < 16
    ensures KeepTop(x | n) == KeepTop(x)
    decreases n
  {
    if n != 0 {
      KeepTopSuitStep(x, n);
      Shrinks(n);
      KeepTopSuits(x, n & (n - 1));
    } else {
      assert x | n == x;
    }
  }

  /** With no rank, KeepTop keeps a low bit. */
  lemma {:induction false} KeepTopLow(n: bv32)
    requires n < 16
    ensures KeepTop(n) < 16
    decreases n
  {
    if n & (n - 1) != 0 {
      Shrinks(n);
      KeepTopLow(n & (n - 1));
    }
  }

  lemma Below16(n: bv32)
    requires n < 16
    ensures Rep(n & SLOT_RANKS, {})
  {
  }

  /** A rank word is its rank fields. */
  lemma RanksMasked(x: bv32, S: set<int>)
    requires Rep(x, S) && IsRankSet(S)
    ensures Rep(x & SLOT_RANKS, S)
  {
  }

  /** KeepTop of a rank word with suit bits below it: the top rank in the
      rank fields (nothing when the word has no rank). */
  lemma KeepTopRep(x: bv32, S: set<int>, n: bv32)
    requires Rep(x, S) && IsRankSet(S) && n < 16
    ensures Rep(KeepTop(x | n) & SLOT_RANKS, Top(S))
  {
    RepZero(x, S);
    if S == {} {
      assert x | n == n;
      KeepTopLow(n);
      Below16(KeepTop(n));
    } else {
      RepLow(x, S);
      KeepTopSuits(x, n);
      KeepTopRanks(x, S);
      RanksMasked(KeepTop(x), Top(S));
    }
  }
}
