// The compress functions of the 32-bit evaluators: each gathers the rank
// fields 6 + 2r of a word into bit r of a dense 13-bit mask.
//
// ace_eval_decompress.c has two: the active DECOMPRESS2, which folds pairs,
// nibbles, bytes and half-words together and shifts out the three low bits,
// and DECOMPRESS1, which shifts out the six low bits and moves every even bit
// down on its own. ace_eval_base.c's compress and ace_eval_mini.c's c(a)
// macro are the same loop: it copies bit 0 of the word to bit i of the
// result, divides the word by four and counts i up, until the word is zero;
// the caller takes the result divided by eight.

module Compress32 {

  import opened RankSets
  import opened Words32
  import opened Bits32
  import Dense

  /** DECOMPRESS2 (ace_eval_decompress.c:53-59). */
  function Compress2(a0: bv32): bv32
  {
    var a1 := (a0 | (a0 >> 1)) & 0x33333333;
    var a2 := (a1 | (a1 >> 2)) & 0x0f0f0f0f;
    var a3 := (a2 | (a2 >> 4)) & 0x00ff00ff;
    var a4 := (a3 | (a3 >> 8)) & 0x0000ffff;
    a4 >> 3
  }

  /** DECOMPRESS1 (ace_eval_decompress.c:30-50). */
  function Compress1(a0: bv32): bv32
  {
    var a := a0 >> 6;
    (a & 0x1) | ((a & 0x4) >> 1) | ((a & 0x10) >> 2) | ((a & 0x40) >> 3) |
    ((a & 0x100) >> 4) | ((a & 0x400) >> 5) | ((a & 0x1000) >> 6) | ((a & 0x4000) >> 7) |
    ((a & 0x10000) >> 8) | ((a & 0x40000) >> 9) | ((a & 0x100000) >> 10) |
    ((a & 0x400000) >> 11) | ((a & 0x1000000) >> 12) | ((a & 0x4000000) >> 13)
  }

  /** DECOMPRESS2 on a word whose rank fields hold S and whose bit 5 is clear:
      the dense mask of S. (DECOMPRESS2 does not mask the odd bits first, so a
      set bit 5 reaches bit 0 of its result.) */
  lemma Compress2Rep(x: bv32, S: set<int>)
    requires Rep(x & SLOT_RANKS, S) && IsRankSet(S) && x & 0x20 == 0
    ensures Dense.Rep(Compress2(x), S)
  {
    OddBitsClear(x, S);
    var c := Compact(x);
    Compress2Compact(x, c);
    CompactRep(x, S, c);
  }

  /** Such a word has no odd bit above bit 4 ... */
  lemma OddBitsClear(x: bv32, S: set<int>)
    requires Rep(x & SLOT_RANKS, S) && x & 0x20 == 0
    ensures x & 0xAAAAAAA0 == 0
  {
  }

  /** ... and on such a word DECOMPRESS2 is the even-bit packing divided by
      eight. */
  lemma Compress2Compact(x: bv32, c: bv32)
    requires x & 0xAAAAAAA0 == 0 && c == Compact(x)
    ensures Compress2(x) == c / 8
  {
  }

  lemma Compress2Mask(x: bv32, S: set<int>)
    requires Rep(x & SLOT_RANKS, S) && IsRankSet(S) && x & 0x20 == 0
    ensures Compress2(x) == Dense.Mask(S)
  {
    Compress2Rep(x, S);
    Dense.MaskOf(Compress2(x), S);
  }

  /** DECOMPRESS1 likewise ... */
  lemma Compress1Rep(x: bv32, S: set<int>)
    requires Rep(x & SLOT_RANKS, S) && IsRankSet(S)
    ensures Dense.Rep(Compress1(x), S)
  {
  }

  /** ... so the two agree on every word of rank fields and low bits with
      bit 5 clear ... */
  lemma CompressAgree(x: bv32, S: set<int>)
    requires Rep(x & SLOT_RANKS, S) && IsRankSet(S) && x & 0x20 == 0
    ensures Compress1(x) == Compress2(x) == Dense.Mask(S)
  {
    Compress1Rep(x, S);
    Compress2Rep(x, S);
    Dense.MaskOf(Compress1(x), S);
    Dense.MaskOf(Compress2(x), S);
  }

  /** ... and only there: on bit 5 alone DECOMPRESS2 reports a deuce. */
  lemma CompressSpare()
    ensures Compress2(0x20) == 1 && Compress1(0x20) == 0
  {
  }

  /* ------------------------------------------------------------ the loop */

  lemma Quarter(a: bv32)
    requires a != 0
    ensures a / 4 < a
  {
  }

  /** Bits 0, 2, 4, .. of a, packed into bits 0, 1, 2, ..: what the loop builds. */
  function Gather(a: bv32): bv32
    decreases a
  {
    if a == 0 then 0
    else
      Quarter(a);
      (a & 1) | (Gather(a / 4) << 1)
  }

  lemma Unfold(a: bv32, a1: bv32)
    requires a != 0 && a1 == a / 4
    ensures Gather(a) == (a & 1) | (Gather(a1) << 1)
  {
  }

  /** One round moves bit 0 of a out to bit i ... */
  lemma Step(whole: bv32, g: bv32, gn: bv32, a: bv32, out: bv32, i: bv6, out1: bv32, i1: bv6)
    requires i < 16 && i1 == i + 1 && out1 == out | ((a & 1) << i)
    requires g == (a & 1) | (gn << 1)
    requires out | (g << i) == whole
    ensures out1 | (gn << i1) == whole
  {
  }

  /** ... so what is gathered so far and what is left still make the whole. */
  lemma RoundGathers(a: bv32, out: bv32, i: bv6, a1: bv32, out1: bv32, i1: bv6,
                     whole: bv32, g: bv32, gn: bv32)
    requires g == Gather(a) && gn == Gather(a1)
    requires a != 0 && i < 16 && a1 == a / 4 && out1 == out | ((a & 1) << i) && i1 == i + 1
    requires out | (g << i) == whole
    ensures out1 | (gn << i1) == whole
  {
    Unfold(a, a1);
    Step(whole, g, gn, a, out, i, out1, i1);
  }

  /** After i rounds a is a0 shifted down by 2i, so a non-zero a means i < 16. */
  lemma RoundBound(a0: bv32, a: bv32, i: bv6, a1: bv32, i1: bv6)
    requires i <= 16 && a == a0 >> (2 * i) && a != 0 && a1 == a / 4 && i1 == i + 1
    ensures i < 16 && i1 <= 16 && a1 == a0 >> (2 * i1)
  {
  }

  lemma RoundDecreases(i: bv6, i1: bv6)
    requires i < 16 && i1 == i + 1
    ensures 16 - i1 < 16 - i
  {
  }

  lemma GatherDone(out: bv32, i: bv6, whole: bv32, g: bv32)
    requires i <= 16 && g == Gather(0)
    requires out | (g << i) == whole
    ensures out == whole
  {
  }

  /** The loop's invariant: i rounds done, a is what is left of a0, and out
      holds the bits gathered from the rest. */
  ghost predicate Gathering(a0: bv32, a: bv32, out: bv32, i: bv6, whole: bv32, g: bv32)
  {
    i <= 16 && a == a0 >> (2 * i) && whole == Gather(a0) && g == Gather(a) &&
    out | (g << i) == whole
  }

  /** One round of the loop: out |= (a & 1) << i; a /= 4; i++. */
  method Round(a0: bv32, a: bv32, out: bv32, i: bv6, ghost whole: bv32, ghost g: bv32)
    returns (a1: bv32, out1: bv32, i1: bv6, ghost gn: bv32)
    requires a != 0 && Gathering(a0, a, out, i, whole, g)
    ensures Gathering(a0, a1, out1, i1, whole, gn) && 16 - i1 < 16 - i
  {
    a1 := a / 4;
    i1 := i + 1;
    RoundBound(a0, a, i, a1, i1);
    out1 := out | ((a & 1) << i);
    gn := Gather(a1);
    RoundGathers(a, out, i, a1, out1, i1, whole, g, gn);
    RoundDecreases(i, i1);
  }

  /** for (i = 0; a; i++) { out |= (a & 1) << i; a /= 4; }: the loop of
      ace_eval_base.c's compress and of ace_eval_mini.c's c(a). */
  method GatherLoop(a0: bv32) returns (out: bv32)
    ensures out == Gather(a0)
  {
    var a := a0;
    out := 0;
    var i: bv6 := 0;
    ghost var whole := Gather(a0);
    ghost var g := whole;
    while a != 0
      invariant Gathering(a0, a, out, i, whole, g)
      decreases 16 - i
    {
      a, out, i, g := Round(a0, a, out, i, whole, g);
    }
    GatherDone(out, i, whole, g);
  }

  /** ace_eval_base.c's compress: the loop's result divided by eight. */
  method Compress(a: bv32) returns (r: bv32)
    ensures r == Gather(a) / 8
  {
    var out := GatherLoop(a);
    r := out / 8;
  }

  /** The even bits of a word, packed by the usual pairwise folding. */
  function Compact(a0: bv32): bv32
  {
    var a1 := a0 & 0x55555555;
    var a2 := (a1 | (a1 >> 1)) & 0x33333333;
    var a3 := (a2 | (a2 >> 2)) & 0x0f0f0f0f;
    var a4 := (a3 | (a3 >> 4)) & 0x00ff00ff;
    (a4 | (a4 >> 8)) & 0x0000ffff
  }

  lemma CompactStep(a: bv32, a1: bv32)
    requires a1 == a / 4
    ensures Compact(a) == (a & 1) | (Compact(a1) << 1)
  {
  }

  lemma GatherCompactStep(a: bv32, a1: bv32)
    requires a != 0 && a1 == a / 4 && Gather(a1) == Compact(a1)
    ensures Gather(a) == Compact(a)
  {
    Unfold(a, a1);
    CompactStep(a, a1);
  }

  /** The loop's result in closed form. */
  lemma {:induction false} GatherCompact(a: bv32)
    ensures Gather(a) == Compact(a)
    decreases a
  {
    if a != 0 {
      var a1 := a / 4;
      Quarter(a);
      GatherCompact(a1);
      GatherCompactStep(a, a1);
    }
  }

  lemma GatherIsCompact(a: bv32, g: bv32)
    requires g == Gather(a)
    ensures g == Compact(a)
  {
    GatherCompact(a);
  }

  /** The even-bit packing of a word whose rank fields hold S, divided by
      eight, holds S in its dense bits ... */
  lemma CompactRep(x: bv32, S: set<int>, c: bv32)
    requires Rep(x & SLOT_RANKS, S) && IsRankSet(S) && c == Compact(x)
    ensures Dense.Rep(c / 8, S)
  {
  }

  /** ... so it is the dense mask of S. */
  lemma CompactMask(x: bv32, S: set<int>, c: bv32)
    requires Rep(x & SLOT_RANKS, S) && IsRankSet(S) && c == Compact(x)
    ensures c / 8 == Dense.Mask(S)
  {
    CompactRep(x, S, c);
    Dense.MaskOf(c / 8, S);
  }

  /** The loop's result divided by eight is the dense mask of the rank fields:
      what compress returns. */
  lemma GatherMask(x: bv32, S: set<int>, g: bv32)
    requires Rep(x & SLOT_RANKS, S) && IsRankSet(S) && g == Gather(x)
    ensures g / 8 == Dense.Mask(S)
  {
    GatherIsCompact(x, g);
    CompactMask(x, S, g);
  }

  /** On any word, the loop and DECOMPRESS2 agree once the odd bits are cleared. */
  lemma GatherAgree(x: bv32)
    ensures Gather(x) / 8 == Compress2(x & 0x55555555)
  {
    GatherCompact(x);
  }
}
