/**
 * The candidate generators of the simulation loop, one per mode. Math.random
 * is replaced by a stream of draws: draws[p] % m stands for
 * Math.floor(Math.random() * m), and a draw past the end of the stream reads
 * as 0. The rejection-sampling loops stop when the stream runs out, so a
 * candidate is complete only when the stream was long enough.
 */
module Sampling {
  import opened Seqs
  import opened Combinatorics

  /** The draw at position p, or 0 past the end of the stream. */
  function Draw(draws: seq<nat>, p: nat): nat
  {
    if p < |draws| then draws[p] else 0
  }

  /** Sorting a repeat-free candidate drawn from [lo, hi] gives an ascending one in [lo, hi]. */
  lemma SortedCandidate(picked: seq<int>, lo: int, hi: int)
    requires Distinct(picked) && InRange(picked, lo, hi)
    ensures var c := SortAscending(picked);
      |c| == |picked| && StrictlyAscending(c) && InRange(c, lo, hi)
  {
    var c := SortAscending(picked);
    SortDistinct(picked);
    forall i | 0 <= i < |c| ensures lo <= c[i] <= hi {
      assert c[i] in multiset(picked);
    }
  }

  /**
   * Random mode: draw numbers in [1, n] until k distinct ones are picked,
   * then sort them.
   */
  method RandomCandidate(draws: seq<nat>, n: nat, k: nat) returns (candidate: seq<int>, used: nat)
    requires n >= 1
    ensures used <= |draws| && |candidate| <= k
    ensures StrictlyAscending(candidate) && InRange(candidate, 1, n)
    ensures |candidate| < k ==> used == |draws|
    ensures |candidate| == k ==> IsGame(candidate, n, k)
  {
    var picked: seq<int> := [];
    used := 0;
    while |picked| < k && used < |draws|
      invariant used <= |draws| && |picked| <= k
      invariant Distinct(picked) && InRange(picked, 1, n)
    {
      var rnd := draws[used] % n + 1;
      if rnd !in picked {
        picked := picked + [rnd];
      }
      used := used + 1;
    }
    SortedCandidate(picked, 1, n);
    candidate := SortAscending(picked);
  }

  /** No number lies in two different chunks. */
  predicate PairwiseDisjoint(chunks: seq<seq<nat>>)
  {
    forall a, b, x :: 0 <= a < b < |chunks| && x in chunks[a] ==> x !in chunks[b]
  }

  /** Every chunk holds numbers of [1, n] only. */
  predicate ChunksInRange(chunks: seq<seq<nat>>, n: nat)
  {
    forall c, x :: 0 <= c < |chunks| && x in chunks[c] ==> 1 <= x <= n
  }

  /**
   * Picking from one chunk: distinct numbers until needed ones are picked,
   * giving up after 100 draws.
   */
  method PickFromChunk(draws: seq<nat>, p: nat, chunk: seq<nat>, needed: nat) returns (picked: seq<int>, used: nat)
    requires |chunk| > 0
    ensures p <= used <= |draws| + p
    ensures Distinct(picked) && |picked| <= needed
    ensures forall x :: x in picked ==> x in chunk
    ensures |picked| < needed ==> used - p >= 100 || used >= |draws|
  {
    picked := [];
    used := p;
    var safety := 0;
    while |picked| < needed && safety < 100 && used < |draws|
      invariant p <= used <= |draws| + p && |picked| <= needed
      invariant safety == used - p
      invariant Distinct(picked) && forall x :: x in picked ==> x in chunk
    {
      var rnd := chunk[draws[used] % |chunk|];
      if rnd !in picked {
        picked := picked + [rnd];
      }
      safety := safety + 1;
      used := used + 1;
    }
  }

  /** The numbers of a chunk. */
  function FromChunk(chunk: seq<nat>): int -> bool
  {
    x => x in chunk
  }

  /**
   * Adding the pick from chunk i to the picks from chunks 0..i-1: the count
   * in chunk i becomes the size of the pick, the others do not move.
   */
  lemma AddPick(cand: seq<int>, picked: seq<int>, chunks: seq<seq<nat>>, i: nat, got: seq<nat>)
    requires PairwiseDisjoint(chunks) && i < |chunks| && |got| == i
    requires forall x :: x in picked ==> x in chunks[i]
    requires forall c :: 0 <= c < |chunks| ==> CountIf(cand, FromChunk(chunks[c])) == if c < i then got[c] else 0
    ensures forall c :: 0 <= c < |chunks| ==>
      CountIf(cand + picked, FromChunk(chunks[c])) == if c < i + 1 then (got + [|picked|])[c] else 0
  {
    forall c | 0 <= c < |chunks|
      ensures CountIf(cand + picked, FromChunk(chunks[c])) == if c < i + 1 then (got + [|picked|])[c] else 0
    {
      CountIfAppend(cand, picked, FromChunk(chunks[c]));
      CountIfUniform(picked, FromChunk(chunks[c]));
      if c == i {
        forall x | x in picked ensures FromChunk(chunks[c])(x) {
        }
        assert (got + [|picked|])[c] == |picked|;
      } else {
        forall x | x in picked ensures !FromChunk(chunks[c])(x) {
          if c < i {
            assert x in chunks[i] ==> x !in chunks[c];
          }
        }
        if c < i {
          assert (got + [|picked|])[c] == got[c];
        }
      }
    }
  }

  /**
   * Smart mode: from chunk i, pattern[i] distinct numbers, all the picks
   * put together and sorted. When the chunks share no number the candidate
   * has no repeats, holds at most pattern[c] numbers of chunk c, and is
   * complete exactly when it holds pattern[c] of every chunk c.
   */
  method SmartCandidate(draws: seq<nat>, chunks: seq<seq<nat>>, pattern: seq<nat>)
    returns (candidate: seq<int>, complete: bool)
    requires |chunks| == |pattern|
    requires forall i :: 0 <= i < |pattern| && pattern[i] > 0 ==> |chunks[i]| > 0
    requires PairwiseDisjoint(chunks)
    ensures StrictlyAscending(candidate) && |candidate| <= Sum(pattern)
    ensures forall x :: x in candidate ==> exists c :: 0 <= c < |chunks| && x in chunks[c]
    ensures complete ==> |candidate| == Sum(pattern)
    ensures forall c :: 0 <= c < |chunks| ==> CountIf(candidate, FromChunk(chunks[c])) <= pattern[c]
    ensures complete <==> forall c :: 0 <= c < |chunks| ==> CountIf(candidate, FromChunk(chunks[c])) == pattern[c]
  {
    var cand: seq<int>;
    ghost var got: seq<nat>;
    cand, complete, got := CollectPicks(draws, chunks, pattern);
    candidate := SortAscending(cand);
    SortDistinct(cand);
    forall x | x in candidate ensures exists c :: 0 <= c < |chunks| && x in chunks[c] {
      assert x in multiset(cand);
      assert x in cand;
    }
    forall c | 0 <= c < |chunks|
      ensures CountIf(candidate, FromChunk(chunks[c])) == got[c]
    {
      CountIfPermutation(candidate, cand, FromChunk(chunks[c]));
    }
  }

  /** The state of the picking loop of smart mode after the chunks 0..i-1. */
  ghost predicate PicksSoFar(chunks: seq<seq<nat>>, pattern: seq<nat>, i: nat, cand: seq<int>, complete: bool, got: seq<nat>)
  {
    i <= |pattern| == |chunks| &&
    Distinct(cand) && |cand| <= Sum(pattern[..i]) && (complete ==> |cand| == Sum(pattern[..i])) &&
    (forall x :: x in cand ==> exists c :: 0 <= c < i && x in chunks[c]) &&
    |got| == i && (forall c :: 0 <= c < i ==> got[c] <= pattern[c]) &&
    (complete <==> forall c :: 0 <= c < i ==> got[c] == pattern[c]) &&
    (forall c :: 0 <= c < |chunks| ==> CountIf(cand, FromChunk(chunks[c])) == if c < i then got[c] else 0)
  }

  /**
   * The picking loop of smart mode, before the sort: got[c] numbers taken
   * from chunk c, at most pattern[c], and complete when every pick was full.
   */
  method CollectPicks(draws: seq<nat>, chunks: seq<seq<nat>>, pattern: seq<nat>)
    returns (cand: seq<int>, complete: bool, ghost got: seq<nat>)
    requires |chunks| == |pattern|
    requires forall i :: 0 <= i < |pattern| && pattern[i] > 0 ==> |chunks[i]| > 0
    requires PairwiseDisjoint(chunks)
    ensures Distinct(cand) && |cand| <= Sum(pattern)
    ensures complete ==> |cand| == Sum(pattern)
    ensures forall x :: x in cand ==> exists c :: 0 <= c < |chunks| && x in chunks[c]
    ensures |got| == |pattern| && forall c :: 0 <= c < |pattern| ==> got[c] <= pattern[c]
    ensures complete <==> forall c :: 0 <= c < |pattern| ==> got[c] == pattern[c]
    ensures forall c :: 0 <= c < |chunks| ==> CountIf(cand, FromChunk(chunks[c])) == got[c]
  {
    cand := [];
    var used := 0;
    complete := true;
    got := [];
    for i := 0 to |pattern|
      invariant PicksSoFar(chunks, pattern, i, cand, complete, got)
    {
      cand, complete, got, used := PickChunk(draws, used, chunks, pattern, i, cand, complete, got);
    }
    assert pattern[..|pattern|] == pattern;
  }

  /** One round of the picking loop: the pick from chunk i joins the candidate. */
  method PickChunk(draws: seq<nat>, used: nat, chunks: seq<seq<nat>>, pattern: seq<nat>, i: nat,
                   cand: seq<int>, complete: bool, ghost got: seq<nat>)
    returns (cand': seq<int>, complete': bool, ghost got': seq<nat>, used': nat)
    requires i < |pattern| && PicksSoFar(chunks, pattern, i, cand, complete, got)
    requires forall i :: 0 <= i < |pattern| && pattern[i] > 0 ==> |chunks[i]| > 0
    requires PairwiseDisjoint(chunks)
    ensures PicksSoFar(chunks, pattern, i + 1, cand', complete', got')
  {
    assert pattern[..i + 1] == pattern[..i] + [pattern[i]];
    SumAppend(pattern[..i], [pattern[i]]);
    if pattern[i] > 0 {
      var picked;
      picked, used' := PickFromChunk(draws, used, chunks[i], pattern[i]);
      forall x | x in cand ensures x !in picked {
        var c :| 0 <= c < i && x in chunks[c];
        assert x !in chunks[i];
      }
      DistinctAppend(cand, picked);
      complete' := complete && |picked| == pattern[i];
      AddPick(cand, picked, chunks, i, got);
      cand' := cand + picked;
      got' := got + [|picked|];
    } else {
      AddPick(cand, [], chunks, i, got);
      assert cand + [] == cand;
      cand', complete', got', used' := cand, complete, got + [0], used;
    }
  }

  /** A complete smart candidate from chunks of [1, n] and a pattern summing to k is a game. */
  lemma SmartCandidateIsGame(candidate: seq<int>, chunks: seq<seq<nat>>, n: nat, k: nat)
    requires ChunksInRange(chunks, n) && StrictlyAscending(candidate) && |candidate| == k
    requires forall x :: x in candidate ==> exists c :: 0 <= c < |chunks| && x in chunks[c]
    ensures IsGame(candidate, n, k)
  {
    forall i | 0 <= i < |candidate| ensures 1 <= candidate[i] <= n {
      var x := candidate[i];
      assert x in candidate;
      var c :| 0 <= c < |chunks| && x in chunks[c];
    }
  }

  /** The indices 0..k-1. */
  function Indices(k: nat): (s: seq<nat>)
    ensures |s| == k && forall i :: 0 <= i < k ==> s[i] == i
  {
    seq(k, i requires 0 <= i < k => i)
  }

  /** The Fisher-Yates shuffle of the chunk order: a permutation of 0..k-1. */
  method Shuffle(draws: seq<nat>, p: nat, k: nat) returns (order: seq<nat>, used: nat)
    ensures multiset(order) == multiset(Indices(k)) && |order| == k
    ensures used == p + (if k > 0 then k - 1 else 0)
  {
    order := Indices(k);
    used := p;
    var i := k - 1;
    while i > 0
      invariant 0 <= i < k || (k == 0 && i == -1)
      invariant multiset(order) == multiset(Indices(k)) && |order| == k
      invariant used == p + (k - 1 - i)
      decreases i
    {
      var j := Draw(draws, used) % (i + 1);
      order := order[i := order[j]][j := order[i]];
      used := used + 1;
      i := i - 1;
    }
    if k == 0 {
      used := p;
    }
  }

  /**
   * Manual mode: chunk indices in shuffled order, one of them replaced by a
   * random chunk with probability 0.30 (a draw below 30 out of 100); one
   * number from each listed chunk, then from random chunks once the list is
   * used up, and a random number of [1, n] whenever the chunk is missing or
   * empty; repeats are skipped until k numbers are picked, then sorted.
   */
  method ManualCandidate(draws: seq<nat>, chunks: seq<seq<nat>>, n: nat, k: nat) returns (candidate: seq<int>, used: nat)
    requires n >= 1 && ChunksInRange(chunks, n)
    ensures StrictlyAscending(candidate) && InRange(candidate, 1, n) && |candidate| <= k
    ensures |candidate| < k ==> used >= |draws|
    ensures |candidate| == k ==> IsGame(candidate, n, k)
  {
    var order: seq<nat>;
    order, used := Shuffle(draws, 0, k);
    if k > 0 && Draw(draws, used) % 100 < 30 {
      var idxToChange := Draw(draws, used + 1) % k;
      var replacement := if |chunks| > 0 then Draw(draws, used + 2) % |chunks| else 0;
      order := order[idxToChange := replacement];
      used := used + 3;
    } else {
      used := used + 1;
    }
    var picked: seq<int> := [];
    while |picked| < k && used < |draws|
      invariant |picked| <= k
      invariant Distinct(picked) && InRange(picked, 1, n)
      decreases |draws| - used
    {
      var chunkIdx: nat;
      if |order| > 0 {
        chunkIdx := order[0];
        order := order[1..];
      } else {
        chunkIdx := if |chunks| > 0 then draws[used] % |chunks| else 0;
        used := used + 1;
      }
      var rnd: int;
      if chunkIdx < |chunks| && |chunks[chunkIdx]| > 0 {
        rnd := chunks[chunkIdx][Draw(draws, used) % |chunks[chunkIdx]|];
        assert rnd in chunks[chunkIdx];
      } else {
        rnd := Draw(draws, used) % n + 1;
      }
      used := used + 1;
      if rnd !in picked {
        picked := picked + [rnd];
      }
    }
    SortedCandidate(picked, 1, n);
    candidate := SortAscending(picked);
  }
}
