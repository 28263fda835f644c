/**
 * The statistics of a game: the sum of its numbers, how many are even and how
 * many belong to the prime list.
 */
module GameStats {
  import opened Seqs
  import opened Text
  import Primes

  datatype Stats = Stats(sum: int, even: nat, primes: nat)

  predicate IsEven(x: int)
  {
    x % 2 == 0
  }

  /** Membership in the prime list, as a predicate for counting. */
  function InList(list: seq<int>): int -> bool
  {
    x => x in list
  }

  /** analyzeGame on numbers already parsed. */
  function AnalyzeGame(nums: seq<int>, primeList: seq<int>): (st: Stats)
    ensures st.even <= |nums| && st.primes <= |nums|
  {
    Stats(Sum(nums), CountIf(nums, IsEven), CountIf(nums, InList(primeList)))
  }

  /** analyzeGame on the numbers of a result row, each read with parseInt. */
  function AnalyzeNumbers(numbers: seq<string>, primeList: seq<int>): (st: Stats)
    ensures st.even <= |numbers| && st.primes <= |numbers|
  {
    AnalyzeGame(Map(numbers, ParseInt), primeList)
  }

  /** The statistics do not depend on the order of the numbers. */
  lemma AnalyzeGamePermutation(s: seq<int>, t: seq<int>, primeList: seq<int>)
    requires multiset(s) == multiset(t)
    ensures AnalyzeGame(s, primeList) == AnalyzeGame(t, primeList)
  {
    SumPermutation(s, t);
    CountIfPermutation(s, t, IsEven);
    CountIfPermutation(s, t, InList(primeList));
  }

  /** Statistics of a concatenation add up. */
  lemma AnalyzeGameAppend(s: seq<int>, t: seq<int>, primeList: seq<int>)
    ensures var a, b, c := AnalyzeGame(s, primeList), AnalyzeGame(t, primeList), AnalyzeGame(s + t, primeList);
      c.sum == a.sum + b.sum && c.even == a.even + b.even && c.primes == a.primes + b.primes
  {
    SumAppend(s, t);
    CountIfAppend(s, t, IsEven);
    CountIfAppend(s, t, InList(primeList));
  }

  /** Against the sieve's list, the prime count is the number of primes in [2, max]. */
  lemma {:induction false} PrimeCountIsPrimes(nums: seq<int>, max: int)
    ensures AnalyzeGame(nums, Primes.PrimesUpTo(max)).primes
      == CountIf(nums, x => 2 <= x <= max && Primes.IsPrime(x))
  {
    var l := Primes.PrimesUpTo(max);
    if |nums| > 0 {
      PrimeCountIsPrimes(nums[1..], max);
      assert (nums[0] in l) == (2 <= nums[0] <= max && Primes.IsPrime(nums[0]));
    }
  }

  /** Writing numbers zero-padded and reading them back gives the same statistics. */
  lemma {:induction false} PaddedNumbersStats(nums: seq<nat>, primeList: seq<int>)
    ensures AnalyzeNumbers(Map(nums, Pad2), primeList) == AnalyzeGame(nums, primeList)
  {
    var parsed := Map(Map(nums, Pad2), ParseInt);
    forall i | 0 <= i < |nums|
      ensures parsed[i] == nums[i]
    {
      Pad2Value(nums[i]);
    }
    assert parsed == nums;
  }

  /** Parity: the even count and the odd count make up the whole game. */
  lemma {:induction false} EvenOddSplit(nums: seq<int>)
    ensures CountIf(nums, IsEven) + CountIf(nums, x => !IsEven(x)) == |nums|
  {
    if |nums| > 0 {
      EvenOddSplit(nums[1..]);
    }
  }
}
