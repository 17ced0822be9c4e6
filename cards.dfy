// Cards and hands. A card is an index 0 .. 51: its suit is index / 13 and its
// rank index % 13 (0 = deuce, ..., 12 = ace); every evaluator derives its
// words from this numbering. A hand is a set of distinct cards.

module Cards {

  import opened RankSets

  predicate IsCard(c: int)
  {
    0 <= c < 52
  }

  predicate IsHand(h: set<int>)
  {
    forall c :: c in h ==> IsCard(c)
  }

  /** h holds the card of suit s and rank r. */
  predicate HasCard(h: set<int>, s: int, r: int)
  {
    13 * s + r in h
  }

  /** The slot of the hand array that counts the cards of suit s: the suit bit
      1 << s taken & 7, so suits 0, 1, 2, 3 use slots 1, 2, 4, 0 in every
      evaluator. */
  function SlotOf(s: int): int
    requires 0 <= s < 4
  {
    if s == 0 then 1 else if s == 1 then 2 else if s == 2 then 4 else 0
  }

  /** (1 << i) & 7 visits the slots 1, 2, 4, 0: the suits 0, 1, 2, 3 in order. */
  lemma IndexSlot(i: int)
    requires 0 <= i < 4
    ensures (((1 as bv32) << i) & 7) as int == SlotOf(i)
  {
  }

  /** The ranks of suit s held in h. */
  ghost function SuitRanks(h: set<int>, s: int): (R: set<int>)
    ensures IsRankSet(R)
  {
    set r | 0 <= r < 13 && HasCard(h, s, r)
  }

  /** The ranks held in h, in any suit. */
  ghost function Ranks(h: set<int>): (R: set<int>)
    ensures IsRankSet(R)
  {
    SuitRanks(h, 0) + SuitRanks(h, 1) + SuitRanks(h, 2) + SuitRanks(h, 3)
  }

  /** 1 when h holds the card of suit s and rank r. */
  ghost function Holds(h: set<int>, s: int, r: int): int
  {
    if r in SuitRanks(h, s) then 1 else 0
  }

  /** How many cards of rank r the hand holds (one per suit at most). */
  ghost function Count(h: set<int>, r: int): int
  {
    Holds(h, 0, r) + Holds(h, 1, r) + Holds(h, 2, r) + Holds(h, 3, r)
  }

  /** Ranks held exactly k times. */
  ghost function WithCount(h: set<int>, k: int): (R: set<int>)
    ensures IsRankSet(R)
  {
    set r | 0 <= r < 13 && Count(h, r) == k
  }

  ghost function Quads(h: set<int>): set<int> { WithCount(h, 4) }
  ghost function Trips(h: set<int>): set<int> { WithCount(h, 3) }
  ghost function Pairs(h: set<int>): set<int> { WithCount(h, 2) }

  /** Number of cards of suit s. */
  ghost function SuitSize(h: set<int>, s: int): (n: nat)
    ensures n <= 13
  {
    RankSetSize(SuitRanks(h, s));
    |SuitRanks(h, s)|
  }

  /** Adding the card of suit s and rank r adds r to suit s and changes no
      other suit. */
  lemma SuitRanksAdd(h: set<int>, s: int, r: int, t: int)
    requires 0 <= s < 4 && 0 <= r < 13 && 0 <= t < 4
    ensures SuitRanks(h + {13 * s + r}, t) ==
      if t == s then SuitRanks(h, t) + {r} else SuitRanks(h, t)
  {
    var A := SuitRanks(h + {13 * s + r}, t);
    var B := if t == s then SuitRanks(h, t) + {r} else SuitRanks(h, t);
    forall q
      ensures q in A <==> q in B
    {
      if 0 <= q < 13 && 13 * t + q == 13 * s + r {
        assert t == s && q == r;
      }
    }
  }

  /** Adding a new card adds one to its own suit only. */
  lemma SuitSizeAdd(h: set<int>, s: int, r: int, t: int)
    requires 0 <= s < 4 && 0 <= r < 13 && 0 <= t < 4 && !HasCard(h, s, r)
    ensures SuitSize(h + {13 * s + r}, t) == SuitSize(h, t) + if t == s then 1 else 0
  {
    SuitRanksAdd(h, s, r, t);
  }

  lemma NoSuitRanks(s: int)
    ensures SuitRanks({}, s) == {}
  {
    if SuitRanks({}, s) != {} {
      var r := Pick(SuitRanks({}, s));
    }
  }

  /** The four suits together hold every card of the hand once. */
  lemma {:induction false} HandSize(h: set<int>)
    requires IsHand(h)
    ensures |h| == SuitSize(h, 0) + SuitSize(h, 1) + SuitSize(h, 2) + SuitSize(h, 3)
    decreases |h|
  {
    if h == {} {
      NoSuitRanks(0);
      NoSuitRanks(1);
      NoSuitRanks(2);
      NoSuitRanks(3);
    } else {
      var c := Pick(h);
      var g := h - {c};
      HandSize(g);
      var s, r := c / 13, c % 13;
      assert 13 * s + r == c;
      assert g + {13 * s + r} == h;
      SuitSizeAdd(g, s, r, 0);
      SuitSizeAdd(g, s, r, 1);
      SuitSizeAdd(g, s, r, 2);
      SuitSizeAdd(g, s, r, 3);
    }
  }

  /** Ranks in at least three of the four sets. */
  ghost function AtLeastThree(A: set<int>, B: set<int>, C: set<int>, D: set<int>): set<int>
  {
    A * B * C + A * B * D + A * C * D + B * C * D
  }

  /** Ranks in at least two of the four sets. */
  ghost function AtLeastTwo(A: set<int>, B: set<int>, C: set<int>, D: set<int>): set<int>
  {
    A * B + A * C + A * D + B * C + B * D + C * D
  }

  /** The ranks held in all four suits are the quads ... */
  lemma QuadsBySuit(h: set<int>)
    ensures Quads(h) == SuitRanks(h, 0) * SuitRanks(h, 1) * SuitRanks(h, 2) * SuitRanks(h, 3)
  {
    var A, B, C, D := SuitRanks(h, 0), SuitRanks(h, 1), SuitRanks(h, 2), SuitRanks(h, 3);
    forall r
      ensures r in Quads(h) <==> r in A * B * C * D
    {
    }
  }

  /** ... those held in exactly three suits the trips ... */
  lemma TripsBySuit(h: set<int>)
    ensures var A, B, C, D := SuitRanks(h, 0), SuitRanks(h, 1), SuitRanks(h, 2), SuitRanks(h, 3);
      Trips(h) == AtLeastThree(A, B, C, D) - A * B * C * D
  {
    var A, B, C, D := SuitRanks(h, 0), SuitRanks(h, 1), SuitRanks(h, 2), SuitRanks(h, 3);
    forall r
      ensures r in Trips(h) <==> r in AtLeastThree(A, B, C, D) - A * B * C * D
    {
    }
  }

  /** ... and those held in exactly two suits the pairs. */
  lemma PairsBySuit(h: set<int>)
    ensures var A, B, C, D := SuitRanks(h, 0), SuitRanks(h, 1), SuitRanks(h, 2), SuitRanks(h, 3);
      Pairs(h) == AtLeastTwo(A, B, C, D) - AtLeastThree(A, B, C, D)
  {
    var A, B, C, D := SuitRanks(h, 0), SuitRanks(h, 1), SuitRanks(h, 2), SuitRanks(h, 3);
    forall r
      ensures r in Pairs(h) <==> r in AtLeastTwo(A, B, C, D) - AtLeastThree(A, B, C, D)
    {
    }
  }
}
