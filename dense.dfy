// Dense rank masks: bit r of a 32-bit word stands for rank r (0 = deuce,
// ..., 12 = ace). Every evaluator packs two such masks into its result.
// Rep(x, S) says that x is exactly the mask of the rank set S; it is written
// as one test of a constant bit per rank, which keeps every proof about it a
// small bit-level fact.

module Dense {

  import opened RankSets

  /** x is the dense mask of the rank set S. */
  predicate Rep(x: bv32, S: set<int>)
  {
    IsRankSet(S) && x & !0x1FFF == 0 &&
    (x & 0x1 != 0 <==> 0 in S) &&
    (x & 0x2 != 0 <==> 1 in S) &&
    (x & 0x4 != 0 <==> 2 in S) &&
    (x & 0x8 != 0 <==> 3 in S) &&
    (x & 0x10 != 0 <==> 4 in S) &&
    (x & 0x20 != 0 <==> 5 in S) &&
    (x & 0x40 != 0 <==> 6 in S) &&
    (x & 0x80 != 0 <==> 7 in S) &&
    (x & 0x100 != 0 <==> 8 in S) &&
    (x & 0x200 != 0 <==> 9 in S) &&
    (x & 0x400 != 0 <==> 10 in S) &&
    (x & 0x800 != 0 <==> 11 in S) &&
    (x & 0x1000 != 0 <==> 12 in S)
  }

  lemma RepUnique(x: bv32, y: bv32, S: set<int>)
    requires Rep(x, S) && Rep(y, S)
    ensures x == y
  {}

  lemma RepZero(x: bv32, S: set<int>)
    requires Rep(x, S)
    ensures x == 0 <==> S == {}
  {
    if S != {} {
      var r := Pick(S);
    }
  }

  lemma RepOr(x: bv32, y: bv32, S: set<int>, T: set<int>)
    requires Rep(x, S) && Rep(y, T)
    ensures Rep(x | y, S + T)
  {}

  lemma RepShift(x: bv32, r: int)
    requires Rep(x, {r}) && r < 12
    ensures Rep(x << 1, {r + 1})
  {}

  /** The mask of a single rank. */
  lemma {:induction false} Single(r: int) returns (x: bv32)
    requires 0 <= r < 13
    ensures Rep(x, {r})
  {
    if r == 0 {
      x := 1;
    } else {
      var y := Single(r - 1);
      RepShift(y, r - 1);
      x := y << 1;
    }
  }

  /** Every rank set has a mask. */
  lemma {:induction false} MaskExists(S: set<int>)
    requires IsRankSet(S)
    ensures exists x :: Rep(x, S)
    decreases |S|
  {
    if S == {} {
      assert Rep(0, S);
    } else {
      var r := Pick(S);
      MaskExists(S - {r});
      var x :| Rep(x, S - {r});
      var y := Single(r);
      RepOr(x, y, S - {r}, {r});
      assert S - {r} + {r} == S;
    }
  }

  /** The dense mask of a rank set. */
  ghost function Mask(S: set<int>): (x: bv32)
    requires IsRankSet(S)
    ensures Rep(x, S)
  {
    MaskExists(S);
    var x :| Rep(x, S); x
  }

  /** A word that represents S is its mask. */
  lemma MaskOf(x: bv32, S: set<int>)
    requires Rep(x, S)
    ensures x == Mask(S)
  {
    RepUnique(x, Mask(S), S);
  }

  /** A mask fits in 13 bits, and it is zero exactly for the empty set. */
  lemma MaskBound(S: set<int>)
    requires IsRankSet(S)
    ensures Mask(S) < 0x2000
    ensures Mask(S) == 0 <==> S == {}
  {
    RepZero(Mask(S), S);
  }
}
