/**
 * The combinatorial number system behind the visited-set index.
 *
 * A game is a strictly ascending k-subset of {1..n}. Its rank is the sum of
 * C(v - 1, i + 1) over the value v at (0-based) position i; this module proves
 * that the rank is a bijection between the games of shape (n, k) and the
 * integers in [0, C(n, k)).
 */
module Combinatorics {

  /** Binomial coefficient by Pascal's rule; C(n, k) == 0 when k > n. */
  function Binom(n: nat, k: nat): nat
  {
    if k == 0 then 1 else if n == 0 then 0 else Binom(n - 1, k - 1) + Binom(n - 1, k)
  }

  predicate StrictlyAscending(s: seq<int>)
  {
    forall i, j :: 0 <= i < j < |s| ==> s[i] < s[j]
  }

  predicate Positive(s: seq<int>)
  {
    forall i :: 0 <= i < |s| ==> s[i] >= 1
  }

  predicate InRange(s: seq<int>, lo: int, hi: int)
  {
    forall i :: 0 <= i < |s| ==> lo <= s[i] <= hi
  }

  /** A sorted k-subset of {1..n}: what the ranking accepts. */
  predicate IsGame(s: seq<int>, n: nat, k: nat)
  {
    |s| == k && InRange(s, 1, n) && StrictlyAscending(s)
  }

  /** The games [lo, lo + 1, ..., lo + len - 1]. */
  function Consecutive(lo: int, len: nat): (s: seq<int>)
    ensures |s| == len
    ensures forall i :: 0 <= i < len ==> s[i] == lo + i
  {
    seq(len, i => lo + i)
  }

  /**
   * Rank of a sequence of positive values: the value v at position i
   * contributes C(v - 1, i + 1).
   */
  function Rank(s: seq<int>): nat
    requires Positive(s)
  {
    if |s| == 0 then 0
    else Rank(s[..|s| - 1]) + Binom(s[|s| - 1] - 1, |s|)
  }

  // ---------------------------------------------------------------------------
  // Facts about the binomial coefficients

  lemma {:induction false} BinomAboveIsZero(n: nat, k: nat)
    requires k > n
    ensures Binom(n, k) == 0
  {
    if n > 0 {
      BinomAboveIsZero(n - 1, k - 1);
      BinomAboveIsZero(n - 1, k);
    }
  }

  lemma {:induction false} BinomPositive(n: nat, k: nat)
    requires k <= n
    ensures Binom(n, k) >= 1
  {
    if k > 0 {
      BinomPositive(n - 1, k - 1);
    }
  }

  /** C(n, k) is nonzero exactly when k <= n. */
  lemma BinomNonzero(n: nat, k: nat)
    ensures Binom(n, k) > 0 <==> k <= n
  {
    if k <= n { BinomPositive(n, k); } else { BinomAboveIsZero(n, k); }
  }

  lemma {:induction false} BinomMonotone(a: nat, m: nat, k: nat)
    requires a <= m
    ensures Binom(a, k) <= Binom(m, k)
  {
    if a < m {
      BinomMonotone(a, m - 1, k);
    }
  }

  lemma AbsorptionStep(n: int, k: int, a: int, b: int, d: int)
    requires (k - 1) * (a + b) == (n - 1) * a && k * d == (n - 1) * b
    ensures k * ((a + b) + d) == n * (a + b)
  {
    assert k * ((a + b) + d) == k * (a + b) + k * d;
    assert k * (a + b) == (k - 1) * (a + b) + (a + b);
    assert (n - 1) * a + (n - 1) * b == (n - 1) * (a + b);
    assert n * (a + b) == (n - 1) * (a + b) + (a + b);
  }

  /** k * C(n, k) == n * C(n - 1, k - 1). */
  lemma {:induction false} Absorption(n: nat, k: nat)
    requires 1 <= k && 1 <= n
    ensures k * Binom(n, k) == n * Binom(n - 1, k - 1)
  {
    if n == 1 {
    } else if k == 1 {
      Absorption(n - 1, 1);
    } else {
      Absorption(n - 1, k - 1);
      Absorption(n - 1, k);
      AbsorptionStep(n, k, Binom(n - 2, k - 2), Binom(n - 2, k - 1), Binom(n - 1, k));
    }
  }

  /** The Quina shape: C(80, 5) == 24,040,016 combinations. */
  lemma QuinaCombinations()
    ensures Binom(80, 5) == 24040016
  {
    Absorption(76, 1);
    Absorption(77, 2);
    Absorption(78, 3);
    Absorption(79, 4);
    Absorption(80, 5);
  }

  // ---------------------------------------------------------------------------
  // The rank is a bijection

  lemma RankSnoc(s: seq<int>)
    requires |s| > 0 && Positive(s)
    ensures Rank(s) == Rank(s[..|s| - 1]) + Binom(s[|s| - 1] - 1, |s|)
  {
  }

  /** Every ascending game whose values are at most m ranks below C(m, |s|). */
  lemma {:induction false} RankBelow(s: seq<int>, m: nat)
    requires StrictlyAscending(s) && InRange(s, 1, m)
    ensures Rank(s) < Binom(m, |s|)
  {
    if |s| > 0 {
      var j := |s|;
      var a := s[j - 1];
      var p := s[..j - 1];
      RankBelow(p, a - 1);
      BinomMonotone(a, m, j);
    }
  }

  /** An ascending game without its last value is still an ascending game. */
  lemma DropLast(s: seq<int>)
    requires StrictlyAscending(s) && Positive(s) && |s| > 0
    ensures StrictlyAscending(s[..|s| - 1]) && Positive(s[..|s| - 1])
    ensures s == s[..|s| - 1] + [s[|s| - 1]]
  {
  }

  /** Of two ascending games of one length, the one with the smaller last value ranks lower. */
  lemma RankByLast(s: seq<int>, t: seq<int>)
    requires StrictlyAscending(s) && StrictlyAscending(t) && 0 < |s| == |t|
    requires Positive(s) && Positive(t)
    requires s[|s| - 1] < t[|t| - 1]
    ensures Rank(s) < Rank(t)
  {
    var j := |s|;
    var a, b := s[j - 1], t[j - 1];
    assert InRange(s, 1, a) by {
      forall i | 0 <= i < j ensures 1 <= s[i] <= a {
        if i < j - 1 { assert s[i] < s[j - 1]; }
      }
    }
    RankBelow(s, a);
    BinomMonotone(a, b - 1, j);
    RankSnoc(t);
  }

  /** Two ascending games of the same length with the same rank are equal. */
  lemma {:induction false} RankInjective(s: seq<int>, t: seq<int>)
    requires StrictlyAscending(s) && StrictlyAscending(t) && |s| == |t|
    requires Positive(s) && Positive(t)
    requires Rank(s) == Rank(t)
    ensures s == t
  {
    if |s| > 0 {
      var j := |s|;
      assert s[j - 1] == t[j - 1] by {
        if s[j - 1] < t[j - 1] {
          RankByLast(s, t);
          assert false;
        } else if t[j - 1] < s[j - 1] {
          RankByLast(t, s);
          assert false;
        }
      }
      DropLast(s);
      DropLast(t);
      RankSnoc(s);
      RankSnoc(t);
      RankInjective(s[..j - 1], t[..j - 1]);
    }
  }

  /**
   * The largest a in [1, top] with C(a - 1, j) <= r: the last value of the
   * game of rank r.
   */
  function LastValue(r: nat, j: nat, top: nat): (a: nat)
    requires j >= 1 && top >= 1
    ensures 1 <= a <= top && Binom(a - 1, j) <= r
    ensures a == top || r < Binom(a, j)
  {
    if top == 1 || Binom(top - 1, j) <= r then top
    else LastValue(r, j, top - 1)
  }

  /** The game of length j with values in [1, m] whose rank is r. */
  function Unrank(r: nat, j: nat, m: nat): (s: seq<int>)
    requires r < Binom(m, j)
    ensures |s| == j && StrictlyAscending(s) && InRange(s, 1, m)
    ensures Rank(s) == r
    decreases j
  {
    if j == 0 then []
    else
      LastValueSplit(r, j, m);
      var a := LastValue(r, j, m);
      var p := Unrank(r - Binom(a - 1, j), j - 1, a - 1);
      UnrankAppend(p, a, m);
      p + [a]
  }

  /** The rank left for the first j - 1 values once the last one is LastValue(r, j, m). */
  lemma LastValueSplit(r: nat, j: nat, m: nat)
    requires j >= 1 && r < Binom(m, j)
    ensures m >= 1
    ensures Binom(LastValue(r, j, m) - 1, j) <= r < Binom(LastValue(r, j, m) - 1, j) + Binom(LastValue(r, j, m) - 1, j - 1)
  {
    BinomNonzero(m, j);
    var a := LastValue(r, j, m);
    assert r < Binom(a, j) by {
      if a == m {}
    }
    assert Binom(a, j) == Binom(a - 1, j - 1) + Binom(a - 1, j);
  }

  /** Appending a value above an ascending game keeps it ascending and adds C(a - 1, |p| + 1) to its rank. */
  lemma UnrankAppend(p: seq<int>, a: int, m: nat)
    requires StrictlyAscending(p) && InRange(p, 1, a - 1) && 1 <= a <= m
    ensures StrictlyAscending(p + [a]) && InRange(p + [a], 1, m)
    ensures Rank(p + [a]) == Rank(p) + Binom(a - 1, |p| + 1)
  {
    var s := p + [a];
    forall x, y | 0 <= x < y < |s| ensures s[x] < s[y] {
      if y < |p| { assert s[x] == p[x] && s[y] == p[y]; } else { assert s[x] == p[x] <= a - 1; }
    }
    RankAppend(p, a);
  }

  /** The value a appended at position |p| contributes C(a - 1, |p| + 1). */
  lemma RankAppend(p: seq<int>, a: int)
    requires Positive(p) && a >= 1
    ensures Positive(p + [a]) && Rank(p + [a]) == Rank(p) + Binom(a - 1, |p| + 1)
  {
    var s := p + [a];
    forall i | 0 <= i < |s| ensures s[i] >= 1 {
      if i < |p| { assert s[i] == p[i]; }
    }
    assert s[..|s| - 1] == p && s[|s| - 1] == a;
    RankSnoc(s);
  }

  /** Unrank inverts Rank on every ascending game. */
  lemma UnrankRank(s: seq<int>, m: nat)
    requires StrictlyAscending(s) && InRange(s, 1, m)
    ensures Rank(s) < Binom(m, |s|) && Unrank(Rank(s), |s|, m) == s
  {
    RankBelow(s, m);
    var u := Unrank(Rank(s), |s|, m);
    RankInjective(u, s);
  }

  // ---------------------------------------------------------------------------
  // The bijection for games of shape (n, k)

  /** The index of a game lies in [0, C(n, k)). */
  lemma RankInRange(s: seq<int>, n: nat, k: nat)
    requires IsGame(s, n, k)
    ensures Rank(s) < Binom(n, k)
  {
    RankBelow(s, n);
  }

  /** Distinct games of a shape get distinct indices. */
  lemma GameRankInjective(s: seq<int>, t: seq<int>, n: nat, k: nat)
    requires IsGame(s, n, k) && IsGame(t, n, k)
    ensures Rank(s) == Rank(t) <==> s == t
  {
    if Rank(s) == Rank(t) {
      RankInjective(s, t);
    }
  }

  /** Every index in [0, C(n, k)) is the index of some game. */
  lemma GameRankSurjective(r: nat, n: nat, k: nat)
    requires r < Binom(n, k)
    ensures IsGame(Unrank(r, k, n), n, k) && Rank(Unrank(r, k, n)) == r
  {
  }

  lemma {:induction false} ConsecutiveRank(m: nat, j: nat)
    ensures Rank(Consecutive(m + 1, j)) == Binom(m + j, j) - 1
    ensures Binom(m + j, j) >= 1
  {
    BinomPositive(m + j, j);
    if j > 0 {
      var s := Consecutive(m + 1, j);
      assert s[..j - 1] == Consecutive(m + 1, j - 1);
      ConsecutiveRank(m, j - 1);
    }
  }

  /** The smallest game [1..k] has index 0. */
  lemma {:induction false} FirstGameRank(k: nat)
    ensures Rank(Consecutive(1, k)) == 0
  {
    if k > 0 {
      var s := Consecutive(1, k);
      assert s[..k - 1] == Consecutive(1, k - 1);
      FirstGameRank(k - 1);
      BinomAboveIsZero(k - 1, k);
    }
  }

  /** The largest game [n-k+1..n] has index C(n, k) - 1. */
  lemma LastGameRank(n: nat, k: nat)
    requires k <= n
    ensures IsGame(Consecutive(n - k + 1, k), n, k)
    ensures Rank(Consecutive(n - k + 1, k)) == Binom(n, k) - 1
  {
    var m: nat := n - k;
    assert m + 1 == n - k + 1 && m + k == n;
    ConsecutiveRank(m, k);
  }
}
