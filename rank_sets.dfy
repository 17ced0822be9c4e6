// Sets of ranks and of bit positions, and the set operations the evaluators
// perform with bit tricks: removing the lowest ranks, keeping the highest
// one, and finding five consecutive ranks (a straight).
//
// Ranks are 0 (deuce) .. 12 (ace). The 64-bit layout has one more position,
// -1, below the deuce; the ace is copied there so that A-2-3-4-5 is a run.

module RankSets {

  predicate IsRankSet(S: set<int>)
  {
    forall r :: r in S ==> 0 <= r < 13
  }

  /** Positions of the 64-bit layout: the ranks and the low-ace slot -1. */
  predicate IsPosSet(S: set<int>)
  {
    forall p :: p in S ==> -1 <= p < 13
  }

  /** There are thirteen ranks. */
  lemma RankSetSize(S: set<int>)
    requires IsRankSet(S)
    ensures |S| <= 13
  {
    BoundedSize(S, 13);
  }

  lemma {:induction false} BoundedSize(S: set<int>, n: nat)
    requires forall r :: r in S ==> 0 <= r < n
    ensures |S| <= n
  {
    if n == 0 {
      if S != {} {
        var x := Pick(S);
      }
    } else {
      var S' := S - {n - 1};
      BoundedSize(S', n - 1);
      if n - 1 in S {
        assert S == S' + {n - 1};
      } else {
        assert S == S';
      }
    }
  }

  predicate IsLowest(m: int, S: set<int>)
  {
    m in S && forall q :: q in S ==> m <= q
  }

  predicate IsHighest(m: int, S: set<int>)
  {
    m in S && forall q :: q in S ==> q <= m
  }

  /** Some element of a non-empty set. */
  lemma Pick(S: set<int>) returns (x: int)
    requires S != {}
    ensures x in S
  {
    if forall y :: y !in S {
      assert false;
    }
    x :| x in S;
  }

  lemma {:induction false} LowestExists(S: set<int>)
    requires S != {}
    ensures exists m :: IsLowest(m, S)
    decreases |S|
  {
    var x := Pick(S);
    if S == {x} {
      assert IsLowest(x, S);
    } else {
      LowestExists(S - {x});
      var m :| IsLowest(m, S - {x});
      forall q | q in S && q != x
        ensures m <= q
      {
        assert q in S - {x};
      }
      if x < m {
        assert IsLowest(x, S);
      } else {
        assert IsLowest(m, S);
      }
    }
  }

  lemma {:induction false} HighestExists(S: set<int>)
    requires S != {}
    ensures exists m :: IsHighest(m, S)
    decreases |S|
  {
    var x := Pick(S);
    if S == {x} {
      assert IsHighest(x, S);
    } else {
      HighestExists(S - {x});
      var m :| IsHighest(m, S - {x});
      forall q | q in S && q != x
        ensures q <= m
      {
        assert q in S - {x};
      }
      if x > m {
        assert IsHighest(x, S);
      } else {
        assert IsHighest(m, S);
      }
    }
  }

  ghost function Lowest(S: set<int>): (m: int)
    requires S != {}
    ensures IsLowest(m, S)
  {
    LowestExists(S);
    var m :| IsLowest(m, S); m
  }

  ghost function Highest(S: set<int>): (m: int)
    requires S != {}
    ensures IsHighest(m, S)
  {
    HighestExists(S);
    var m :| IsHighest(m, S); m
  }

  /** S without its n lowest elements (all of them if it has fewer). */
  ghost function DropLowest(S: set<int>, n: nat): (D: set<int>)
    ensures D <= S
    decreases n
  {
    if n == 0 || S == {} then S else DropLowest(S - {Lowest(S)}, n - 1)
  }

  /** The highest element of S as a set: empty when S is. */
  ghost function Top(S: set<int>): (T: set<int>)
    ensures T <= S && |T| <= 1
    ensures T == {} <==> S == {}
  {
    if S == {} then {} else {Highest(S)}
  }

  /** A set of one element is its own top ... */
  lemma SingleTop(S: set<int>, m: int)
    requires IsLowest(m, S) && S - {m} == {}
    ensures Top(S) == {m}
  {
    assert S == {m};
  }

  /** ... and removing the lowest of two or more elements keeps the highest. */
  lemma TopDropLowest(S: set<int>, m: int)
    requires IsLowest(m, S) && S - {m} != {}
    ensures Top(S - {m}) == Top(S)
  {
    var t := Highest(S - {m});
    forall q | q in S
      ensures q <= t
    {
      if q != m {
        assert q in S - {m};
      }
    }
    var u := Highest(S);
    assert u <= t && t <= u;
  }

  /** DropLowest keeps |S| - n elements ... */
  lemma {:induction false} DropLowestSize(S: set<int>, n: nat)
    ensures |DropLowest(S, n)| == if n <= |S| then |S| - n else 0
    decreases n
  {
    if n != 0 && S != {} {
      DropLowestSize(S - {Lowest(S)}, n - 1);
    }
  }

  /** ... and every element it keeps is above every element it drops. */
  lemma {:induction false} DropLowestOrder(S: set<int>, n: nat, x: int, y: int)
    requires x in DropLowest(S, n) && y in S - DropLowest(S, n)
    ensures y < x
    decreases n
  {
    if n != 0 && S != {} {
      var m := Lowest(S);
      if y != m {
        DropLowestOrder(S - {m}, n - 1, x, y);
      }
    }
  }

  /** p is one above an element of S. */
  predicate Above(p: int, S: set<int>)
  {
    p - 1 in S
  }

  /** p is one below an element of S. */
  predicate Below(p: int, S: set<int>)
  {
    p + 1 in S
  }

  /** Positions one above an element of S (S a position set). */
  ghost function Up(S: set<int>): set<int>
  {
    set p | 0 <= p <= 13 && Above(p, S)
  }

  /** Positions one below an element of S (S a position set). */
  ghost function Down(S: set<int>): set<int>
  {
    set p | -2 <= p <= 11 && Below(p, S)
  }

  /** The ranks with the ace also counted as the position below the deuce. */
  ghost function Extended(X: set<int>): set<int>
  {
    if 12 in X then X + {-1} else X
  }

  /** Positions t such that t, t-1, ..., t-k are all in E. */
  ghost function Run(E: set<int>, k: nat): set<int>
  {
    if k == 0 then E else Run(E, k - 1) * Up(Run(E, k - 1))
  }

  /** t, t-1, ..., t-k are all in E. */
  predicate RunsDown(E: set<int>, t: int, k: nat)
    decreases k
  {
    t in E && (k == 0 || RunsDown(E, t - 1, k - 1))
  }

  /** t is the top rank of a straight: t, ..., t-4 are in E (the extended ranks). */
  predicate IsTop(t: int, E: set<int>)
  {
    t in E && t - 1 in E && t - 2 in E && t - 3 in E && t - 4 in E
  }

  /** The top ranks of the straights (five consecutive ranks) in X. */
  ghost function Tops(X: set<int>): set<int>
  {
    set t | 0 <= t < 13 && IsTop(t, Extended(X))
  }

  /** t is a top and t + 1 is not: the top of a maximal run. */
  predicate IsHighTop(t: int, T: set<int>)
  {
    t in T && t + 1 !in T
  }

  /** The tops of the straights in X that are not below another top. */
  ghost function HighTops(X: set<int>): set<int>
  {
    set t | 0 <= t < 13 && IsHighTop(t, Tops(X))
  }

  lemma {:induction false} RunMember(E: set<int>, k: nat, p: int)
    requires IsPosSet(E)
    decreases k
    ensures p in Run(E, k) <==> RunsDown(E, p, k)
  {
    if k > 0 {
      var R := Run(E, k - 1);
      RunMember(E, k - 1, p);
      RunMember(E, k - 1, p - 1);
      RunsDownStep(E, p, k);
      RunSubset(E, k - 1);
      assert p in Up(R) <==> 0 <= p <= 13 && p - 1 in R;
    }
  }

  lemma {:induction false} RunSubset(E: set<int>, k: nat)
    decreases k
    ensures Run(E, k) <= E
  {
    if k > 0 {
      RunSubset(E, k - 1);
    }
  }

  /** Unfolding RunsDown from the bottom. */
  lemma {:induction false} RunsDownStep(E: set<int>, p: int, k: nat)
    requires k > 0
    decreases k
    ensures RunsDown(E, p, k) <==> RunsDown(E, p, k - 1) && RunsDown(E, p - 1, k - 1)
  {
    if k > 1 {
      RunsDownStep(E, p - 1, k - 1);
    }
  }

  /** Four rounds of "and with the shift by one" leave exactly the straight tops. */
  lemma RunTops(X: set<int>)
    requires IsRankSet(X)
    ensures Run(Extended(X), 4) == Tops(X)
  {
    var E := Extended(X);
    assert IsPosSet(E);
    forall p
      ensures p in Run(E, 4) <==> p in Tops(X)
    {
      RunMember(E, 4, p);
      assert RunsDown(E, p, 4) <==> IsTop(p, E);
    }
  }

  /** Clearing a top whose successor is also a top leaves the highest tops. */
  lemma HighTopsDown(X: set<int>)
    ensures Tops(X) - Down(Tops(X)) == HighTops(X)
  {
    var T := Tops(X);
    forall t
      ensures t in T - Down(T) <==> t in HighTops(X)
    {
      if t in T {
        assert t + 1 in T ==> Below(t, T);
      }
    }
  }

  /** There is a straight exactly when there is a highest straight. */
  lemma HighTopsEmpty(X: set<int>)
    ensures HighTops(X) == {} <==> Tops(X) == {}
  {
    if Tops(X) != {} {
      var t := Highest(Tops(X));
      assert t in HighTops(X);
    }
    if HighTops(X) != {} {
      var t := Pick(HighTops(X));
      assert t in Tops(X);
    }
  }
}
