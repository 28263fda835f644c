/**
 * The strata ("quintiles") of the simulation and of the generator: the
 * numbers 1..n ranked by how often they were drawn in earlier games, cut into
 * k contiguous chunks, and the target's pattern (how many of its numbers fall
 * in each chunk).
 */
module Strata {
  import opened Seqs
  import opened Text
  import opened Core

  // ---------------------------------------------------------------------------
  // Counting draws

  /** Occurrences of key among the numbers of one game. */
  function CountIn(numbers: seq<string>, key: string): nat
  {
    if |numbers| == 0 then 0
    else CountIn(numbers[..|numbers| - 1], key) + (if numbers[|numbers| - 1] == key then 1 else 0)
  }

  /** Occurrences of key among the numbers of all the games. */
  function Occurrences(games: seq<Row>, key: string): nat
  {
    if |games| == 0 then 0
    else Occurrences(games[..|games| - 1], key) + CountIn(games[|games| - 1].numbers, key)
  }

  /** counts[key] || 0. */
  function Get(counts: map<string, nat>, key: string): nat
  {
    if key in counts then counts[key] else 0
  }

  /**
   * The counting loop of openSimulation: one entry per distinct number
   * string, holding how often it occurs in the games.
   */
  method CountNumbers(games: seq<Row>) returns (counts: map<string, nat>)
    ensures forall key :: Get(counts, key) == Occurrences(games, key)
    ensures forall key :: key in counts ==> counts[key] > 0
  {
    counts := map[];
    var i := 0;
    while i < |games|
      invariant 0 <= i <= |games|
      invariant forall key :: Get(counts, key) == Occurrences(games[..i], key)
      invariant forall key :: key in counts ==> counts[key] > 0
    {
      var nums := games[i].numbers;
      var j := 0;
      while j < |nums|
        invariant 0 <= j <= |nums|
        invariant forall key :: Get(counts, key) == Occurrences(games[..i], key) + CountIn(nums[..j], key)
        invariant forall key :: key in counts ==> counts[key] > 0
      {
        var b := nums[j];
        assert nums[..j + 1][..j] == nums[..j];
        counts := counts[b := Get(counts, b) + 1];
        j := j + 1;
      }
      assert nums[..j] == nums;
      assert games[..i + 1][..i] == games[..i];
      i := i + 1;
    }
    assert games[..i] == games;
  }

  /** A one-character key never occurs among numbers written with two or more digits. */
  lemma {:induction false} ShortKeyNeverCounted(games: seq<Row>, key: string)
    requires forall g :: g in games ==> forall s :: s in g.numbers ==> |s| >= 2
    requires |key| < 2
    ensures Occurrences(games, key) == 0
  {
    if |games| > 0 {
      var last := games[|games| - 1];
      assert forall g :: g in games[..|games| - 1] ==> g in games;
      ShortKeyNeverCounted(games[..|games| - 1], key);
      ShortKeyNotIn(last.numbers, key);
    }
  }

  lemma {:induction false} ShortKeyNotIn(numbers: seq<string>, key: string)
    requires forall s :: s in numbers ==> |s| >= 2
    requires |key| < 2
    ensures CountIn(numbers, key) == 0
  {
    if |numbers| > 0 {
      assert forall s :: s in numbers[..|numbers| - 1] ==> s in numbers;
      ShortKeyNotIn(numbers[..|numbers| - 1], key);
    }
  }

  // ---------------------------------------------------------------------------
  // Ranking 1..n by frequency

  /** The numbers 1..n in ascending order. */
  function Universe(n: nat): (u: seq<nat>)
    ensures |u| == n && forall i :: 0 <= i < n ==> u[i] == i + 1
  {
    seq(n, i requires 0 <= i < n => i + 1)
  }

  /** Sorting 1..n is stable: numbers with equal keys stay in ascending order. */
  lemma UniverseTies(n: nat, key: nat -> int)
    ensures var r := SortBy(Universe(n), key);
      forall i, j :: 0 <= i < j < |r| && key(r[i]) == key(r[j]) ==> r[i] < r[j]
  {
    var pos := (x: nat) => x as int;
    assert TiesOrdered(Universe(n), key, pos);
    SortByTies(Universe(n), key, pos);
  }

  /** Descending count, read under the two-digit key of the number. */
  function PaddedKey(counts: map<string, nat>): nat -> int
  {
    (x: nat) => -(Get(counts, Pad2(x)) as int)
  }

  /** Descending count, read under the plain decimal key of the number. */
  function DecimalKey(counts: map<string, nat>): nat -> int
  {
    (x: nat) => -(Get(counts, Dec(x)) as int)
  }

  /**
   * The ranking: 1..n stably sorted by descending count, where the count of
   * x is read under its two-digit string, the form in which rows store it.
   */
  function RankByFrequency(counts: map<string, nat>, n: nat): (ranked: seq<nat>)
    ensures multiset(ranked) == multiset(Universe(n)) && |ranked| == n
    ensures forall i, j :: 0 <= i < j < n ==> Get(counts, Pad2(ranked[i])) >= Get(counts, Pad2(ranked[j]))
  {
    var ranked := SortBy(Universe(n), PaddedKey(counts));
    assert forall i, j :: 0 <= i < j < n ==> PaddedKey(counts)(ranked[i]) <= PaddedKey(counts)(ranked[j]);
    ranked
  }

  /** The sort is stable: numbers with equal counts keep their ascending order. */
  lemma RankByFrequencyTies(counts: map<string, nat>, n: nat)
    ensures var ranked := RankByFrequency(counts, n);
      forall i, j :: 0 <= i < j < n && Get(counts, Pad2(ranked[i])) == Get(counts, Pad2(ranked[j])) ==> ranked[i] < ranked[j]
  {
    var ranked := RankByFrequency(counts, n);
    assert ranked == SortBy(Universe(n), PaddedKey(counts));
    UniverseTies(n, PaddedKey(counts));
    forall i, j | 0 <= i < j < n && Get(counts, Pad2(ranked[i])) == Get(counts, Pad2(ranked[j]))
      ensures ranked[i] < ranked[j]
    {
      assert PaddedKey(counts)(ranked[i]) == PaddedKey(counts)(ranked[j]);
    }
  }

  /** Descending number of occurrences in the history, under the two-digit key. */
  function HistoryKey(games: seq<Row>): nat -> int
  {
    (x: nat) => -(Occurrences(games, Pad2(x)) as int)
  }

  /** The ranking of 1..n by how often each number was drawn in the history, most drawn first. */
  function RankByHistory(games: seq<Row>, n: nat): (ranked: seq<nat>)
    ensures multiset(ranked) == multiset(Universe(n)) && |ranked| == n
    ensures forall i, j :: 0 <= i < j < n ==> Occurrences(games, Pad2(ranked[i])) >= Occurrences(games, Pad2(ranked[j]))
  {
    var ranked := SortBy(Universe(n), HistoryKey(games));
    assert forall i, j :: 0 <= i < j < n ==> HistoryKey(games)(ranked[i]) <= HistoryKey(games)(ranked[j]);
    ranked
  }

  /** Numbers drawn equally often keep their ascending order. */
  lemma RankByHistoryTies(games: seq<Row>, n: nat)
    ensures var ranked := RankByHistory(games, n);
      forall i, j :: 0 <= i < j < n && Occurrences(games, Pad2(ranked[i])) == Occurrences(games, Pad2(ranked[j])) ==> ranked[i] < ranked[j]
  {
    var ranked := RankByHistory(games, n);
    assert ranked == SortBy(Universe(n), HistoryKey(games));
    UniverseTies(n, HistoryKey(games));
    forall i, j | 0 <= i < j < n && Occurrences(games, Pad2(ranked[i])) == Occurrences(games, Pad2(ranked[j]))
      ensures ranked[i] < ranked[j]
    {
      assert HistoryKey(games)(ranked[i]) == HistoryKey(games)(ranked[j]);
    }
  }

  /** Ranking by the counts of the counting loop is ranking by the history. */
  lemma RankMatchesHistory(counts: map<string, nat>, games: seq<Row>, n: nat)
    requires forall key :: Get(counts, key) == Occurrences(games, key)
    ensures RankByFrequency(counts, n) == RankByHistory(games, n)
  {
    SortByCongruent(Universe(n), PaddedKey(counts), HistoryKey(games));
  }

  /**
   * The ranking as simulation.js and methods.js write it: the counts are
   * stored under the rows' two-digit strings but read under the plain
   * decimal string of each number, so the count of 1..9 always reads as 0.
   */
  function RankAsWritten(counts: map<string, nat>, n: nat): (ranked: seq<nat>)
    ensures multiset(ranked) == multiset(Universe(n)) && |ranked| == n
    ensures forall i, j :: 0 <= i < j < n ==> Get(counts, Dec(ranked[i])) >= Get(counts, Dec(ranked[j]))
  {
    var ranked := SortBy(Universe(n), DecimalKey(counts));
    assert forall i, j :: 0 <= i < j < n ==> DecimalKey(counts)(ranked[i]) <= DecimalKey(counts)(ranked[j]);
    ranked
  }

  /** Under the ranking as written, numbers whose decimal key reads the same count keep their ascending order. */
  lemma RankAsWrittenTies(counts: map<string, nat>, n: nat)
    ensures var ranked := RankAsWritten(counts, n);
      forall i, j :: 0 <= i < j < n && Get(counts, Dec(ranked[i])) == Get(counts, Dec(ranked[j])) ==> ranked[i] < ranked[j]
  {
    var ranked := RankAsWritten(counts, n);
    assert ranked == SortBy(Universe(n), DecimalKey(counts));
    UniverseTies(n, DecimalKey(counts));
    forall i, j | 0 <= i < j < n && Get(counts, Dec(ranked[i])) == Get(counts, Dec(ranked[j]))
      ensures ranked[i] < ranked[j]
    {
      assert DecimalKey(counts)(ranked[i]) == DecimalKey(counts)(ranked[j]);
    }
  }

  /**
   * Under the ranking as written, a number from 1 to 9 is counted 0 times
   * whatever the history, since every number of a row has two digits.
   */
  lemma AsWrittenIgnoresSingleDigits(games: seq<Row>, counts: map<string, nat>, x: nat)
    requires forall g :: g in games ==> forall s :: s in g.numbers ==> |s| >= 2
    requires forall key :: Get(counts, key) == Occurrences(games, key)
    requires 1 <= x <= 9
    ensures Get(counts, Dec(x)) == 0
  {
    ShortKeyNeverCounted(games, Dec(x));
  }

  /** So in that ranking, a number counted 0 times comes after every number counted at least once. */
  lemma AsWrittenOrder(counts: map<string, nat>, n: nat, i: nat, j: nat)
    requires i < n && j < n
    requires Get(counts, Dec(RankAsWritten(counts, n)[i])) == 0
    requires Get(counts, Dec(RankAsWritten(counts, n)[j])) > 0
    ensures j < i
  {
    var r := RankAsWritten(counts, n);
    var count := (x: nat) => Get(counts, Dec(x));
    assert forall a, b :: 0 <= a < b < n ==> count(r[a]) >= count(r[b]);
    ZeroComesLast(r, count, i, j);
  }

  lemma ZeroComesLast(r: seq<nat>, count: nat -> nat, i: nat, j: nat)
    requires forall a, b :: 0 <= a < b < |r| ==> count(r[a]) >= count(r[b])
    requires i < |r| && j < |r| && count(r[i]) == 0 && count(r[j]) > 0
    ensures j < i
  {
  }

  /** The history [["05", "10", "20", "30", "40"]]: 5 was drawn once, yet its count reads as 0. */
  lemma SingleDigitExample()
    ensures var games := [Row("1", "01/01/2000", ["05", "10", "20", "30", "40"], RowStats(105, 4, 1, 1, 1, 2000, 0, true))];
      Occurrences(games, Pad2(5)) == 1 && Occurrences(games, Dec(5)) == 0
  {
    var games := [Row("1", "01/01/2000", ["05", "10", "20", "30", "40"], RowStats(105, 4, 1, 1, 1, 2000, 0, true))];
    assert Dec(5) == "5";
    assert Pad2(5) == "05";
    var nums := games[0].numbers;
    assert nums[..4] == ["05", "10", "20", "30"] && nums[..3] == ["05", "10", "20"];
    assert nums[..2] == ["05", "10"] && nums[..1] == ["05"] && nums[..0] == [];
    assert games[..0] == [];
    assert nums[..4][..3] == nums[..3] && nums[..3][..2] == nums[..2] && nums[..2][..1] == nums[..1] && nums[..1][..0] == [];
    assert CountIn(nums[..1], "05") == 1 && CountIn(nums[..1], "5") == 0;
    assert CountIn(nums[..2], "05") == 1 && CountIn(nums[..2], "5") == 0;
    assert CountIn(nums[..3], "05") == 1 && CountIn(nums[..3], "5") == 0;
    assert CountIn(nums[..4], "05") == 1 && CountIn(nums[..4], "5") == 0;
    assert CountIn(nums, "05") == 1 && CountIn(nums, "5") == 0;
  }

  /** With no history every count is 0, and the stable sort keeps 1..n in order (main.js skips the sort then). */
  lemma {:induction false} NoHistoryKeepsOrder(n: nat)
    ensures RankByFrequency(map[], n) == Universe(n)
  {
    SortConstantKey(Universe(n), PaddedKey(map[]));
  }

  lemma {:induction false} SortConstantKey(s: seq<nat>, key: nat -> int)
    requires forall x :: key(x) == 0
    ensures SortBy(s, key) == s
  {
    if |s| > 0 {
      SortConstantKey(s[1..], key);
      assert s == [s[0]] + s[1..];
    }
  }

  // ---------------------------------------------------------------------------
  // Chunks

  /** The chunk size: Math.ceil(len / k). */
  function ChunkSize(len: nat, k: nat): nat
    requires k >= 1
  {
    CeilDiv(len, k)
  }

  /** The i-th chunk: list.slice(i * size, (i + 1) * size). */
  function Chunk<T>(list: seq<T>, size: nat, i: nat): seq<T>
  {
    Slice(list, i * size, (i + 1) * size)
  }

  /** The k chunks of the list. */
  function ChunksOf<T>(list: seq<T>, k: nat): (chunks: seq<seq<T>>)
    requires k >= 1
    ensures |chunks| == k
  {
    seq(k, i requires 0 <= i < k => Chunk(list, ChunkSize(|list|, k), i))
  }

  /** The chunking loop: k slices of size ceil(len / k), pushed one by one. */
  method BuildChunks<T>(list: seq<T>, k: nat) returns (chunks: seq<seq<T>>)
    requires k >= 1
    ensures chunks == ChunksOf(list, k)
  {
    var size := ChunkSize(|list|, k);
    chunks := [];
    for i := 0 to k
      invariant |chunks| == i
      invariant forall j :: 0 <= j < i ==> chunks[j] == Chunk(list, size, j)
    {
      chunks := chunks + [Slice(list, i * size, (i + 1) * size)];
    }
  }

  function Flatten<T>(chunks: seq<seq<T>>): seq<T>
  {
    if |chunks| == 0 then [] else Flatten(chunks[..|chunks| - 1]) + chunks[|chunks| - 1]
  }

  /** The chunks, read in order, give back the list: they partition it. */
  lemma ChunksPartition<T>(list: seq<T>, k: nat)
    requires k >= 1
    ensures Flatten(ChunksOf(list, k)) == list
  {
    var size := ChunkSize(|list|, k);
    FlattenPrefix(list, size, k);
    assert Min(k * size, |list|) == |list|;
  }

  lemma {:induction false} FlattenPrefix<T>(list: seq<T>, size: nat, i: nat)
    ensures Flatten(seq(i, j requires 0 <= j < i => Chunk(list, size, j))) == list[..Min(i * size, |list|)]
  {
    var cs := seq(i, j requires 0 <= j < i => Chunk(list, size, j));
    if i > 0 {
      var prev := seq(i - 1, j requires 0 <= j < i - 1 => Chunk(list, size, j));
      assert cs[..i - 1] == prev;
      FlattenPrefix(list, size, i - 1);
      var a, b := ChunkRange(list, size, i - 1);
      assert cs[i - 1] == list[a..b];
      assert list[..a] + list[a..b] == list[..b];
    }
  }

  /** Chunk i is the slice of the list between the clamped bounds i * size and (i + 1) * size. */
  lemma ChunkRange<T>(list: seq<T>, size: nat, i: nat) returns (a: nat, b: nat)
    ensures a == Min(i * size, |list|) && b == Min((i + 1) * size, |list|)
    ensures a <= b <= |list| && Chunk(list, size, i) == list[a..b]
  {
    MulLe(i, i + 1, size);
    a, b := Min(i * size, |list|), Min((i + 1) * size, |list|);
  }

  /** An element of the i-th chunk sits at a position of the i-th block of the list. */
  lemma InChunkPosition<T>(list: seq<T>, size: nat, i: nat, x: T) returns (p: nat)
    requires x in Chunk(list, size, i)
    ensures i * size <= p < (i + 1) * size && p < |list| && list[p] == x
  {
    var c := Chunk(list, size, i);
    var q :| 0 <= q < |c| && c[q] == x;
    p := i * size + q;
  }

  lemma MulLe(a: nat, b: nat, c: nat)
    requires a <= b
    ensures a * c <= b * c
  {
  }

  /** Chunks of a list without repeats share no element. */
  lemma ChunksDisjoint<T>(list: seq<T>, k: nat, i: nat, j: nat, x: T)
    requires k >= 1 && Distinct(list) && i < j < k
    requires x in ChunksOf(list, k)[i]
    ensures x !in ChunksOf(list, k)[j]
  {
    var size := ChunkSize(|list|, k);
    var p := InChunkPosition(list, size, i, x);
    if x in ChunksOf(list, k)[j] {
      var q := InChunkPosition(list, size, j, x);
      MulLe(i + 1, j, size);
    }
  }

  /** The Quina: five chunks of sixteen numbers each. */
  lemma QuinaChunks(list: seq<nat>, i: nat)
    requires |list| == 80 && i < 5
    ensures ChunkSize(80, 5) == 16 && |ChunksOf(list, 5)[i]| == 16
  {
  }

  // ---------------------------------------------------------------------------
  // The target's pattern

  /** chunks.findIndex(c => c.includes(x)): the first chunk holding x, or -1. */
  function FindChunk(chunks: seq<seq<nat>>, x: int): (idx: int)
    ensures -1 <= idx < |chunks|
    ensures idx >= 0 ==> x in chunks[idx] && forall j :: 0 <= j < idx ==> x !in chunks[j]
    ensures idx == -1 <==> forall j :: 0 <= j < |chunks| ==> x !in chunks[j]
  {
    if |chunks| == 0 then -1
    else
      var idx := FindChunk(chunks[..|chunks| - 1], x);
      if idx >= 0 then idx
      else if x in chunks[|chunks| - 1] then |chunks| - 1
      else -1
  }

  /** The predicate "lands in chunk c". */
  function InChunk(chunks: seq<seq<nat>>, c: int): int -> bool
  {
    x => FindChunk(chunks, x) == c
  }

  /** The pattern loop: one counter per chunk, bumped for each target number found in it. */
  method QuintilePattern(chunks: seq<seq<nat>>, target: seq<int>) returns (pattern: seq<nat>)
    ensures |pattern| == |chunks|
    ensures forall c :: 0 <= c < |chunks| ==> pattern[c] == CountIf(target, InChunk(chunks, c))
    ensures Sum(pattern) == |target| - CountIf(target, InChunk(chunks, -1))
  {
    pattern := seq(|chunks|, _ => 0);
    ZeroSum(|chunks|);
    var i := 0;
    while i < |target|
      invariant 0 <= i <= |target| && |pattern| == |chunks|
      invariant forall c :: 0 <= c < |chunks| ==> pattern[c] == CountIf(target[..i], InChunk(chunks, c))
      invariant Sum(pattern) == i - CountIf(target[..i], InChunk(chunks, -1))
    {
      var idx := FindChunk(chunks, target[i]);
      assert target[..i + 1] == target[..i] + [target[i]];
      forall c | -1 <= c < |chunks| {
        CountIfAppend(target[..i], [target[i]], InChunk(chunks, c));
      }
      if idx != -1 {
        SumIncrement(pattern, idx);
        pattern := pattern[idx := pattern[idx] + 1];
      }
      i := i + 1;
    }
    assert target[..i] == target;
  }

  lemma ZeroSum(n: nat)
    ensures Sum(seq(n, _ => 0)) == 0
  {
    if n > 0 {
      assert seq(n, _ => 0)[1..] == seq(n - 1, _ => 0);
      ZeroSum(n - 1);
    }
  }

  lemma {:induction false} SumIncrement(s: seq<nat>, i: nat)
    requires i < |s|
    ensures Sum(s[i := s[i] + 1]) == Sum(s) + 1
  {
    if i > 0 {
      assert s[i := s[i] + 1][1..] == s[1..][i - 1 := s[i] + 1];
      SumIncrement(s[1..], i - 1);
    }
  }

  /** When the chunks partition 1..n, every number of a target drawn from [1, n] lands in a chunk. */
  lemma PatternCoversTarget(chunks: seq<seq<nat>>, target: seq<int>, n: nat)
    requires multiset(Flatten(chunks)) == multiset(Universe(n))
    requires forall i :: 0 <= i < |target| ==> 1 <= target[i] <= n
    ensures CountIf(target, InChunk(chunks, -1)) == 0
  {
    forall i | 0 <= i < |target|
      ensures !InChunk(chunks, -1)(target[i])
    {
      FoundInChunks(chunks, n, target[i]);
    }
    NoneCounted(target, InChunk(chunks, -1));
  }

  lemma FoundInChunks(chunks: seq<seq<nat>>, n: nat, x: int)
    requires multiset(Flatten(chunks)) == multiset(Universe(n))
    requires 1 <= x <= n
    ensures FindChunk(chunks, x) != -1
  {
    assert Universe(n)[x - 1] == x;
    assert x in multiset(Universe(n));
    var y: nat := x;
    assert y in Flatten(chunks);
    InFlatten<nat>(chunks, y);
  }

  lemma {:induction false} InFlatten<T>(chunks: seq<seq<T>>, x: T)
    requires x in Flatten(chunks)
    ensures exists j :: 0 <= j < |chunks| && x in chunks[j]
  {
    if |chunks| > 0 {
      var last := chunks[|chunks| - 1];
      if x !in last {
        InFlatten(chunks[..|chunks| - 1], x);
        var j :| 0 <= j < |chunks| - 1 && x in chunks[..|chunks| - 1][j];
        assert x in chunks[j];
      }
    }
  }

  lemma {:induction false} NoneCounted<T>(s: seq<T>, p: T -> bool)
    requires forall i :: 0 <= i < |s| ==> !p(s[i])
    ensures CountIf(s, p) == 0
  {
    if |s| > 0 {
      NoneCounted(s[1..], p);
    }
  }

  /**
   * The strata of a history: the ranked numbers, chunked, partition 1..n,
   * and the pattern of a target drawn from [1, n] sums to its length.
   */
  lemma StrataPartition(counts: map<string, nat>, n: nat, k: nat, target: seq<int>, pattern: seq<nat>)
    requires k >= 1
    requires forall i :: 0 <= i < |target| ==> 1 <= target[i] <= n
    requires |pattern| == k
    requires Sum(pattern) == |target| - CountIf(target, InChunk(ChunksOf(RankByFrequency(counts, n), k), -1))
    ensures multiset(Flatten(ChunksOf(RankByFrequency(counts, n), k))) == multiset(Universe(n))
    ensures Sum(pattern) == |target|
  {
    var chunks := ChunksOf(RankByFrequency(counts, n), k);
    ChunksPartition(RankByFrequency(counts, n), k);
    PatternCoversTarget(chunks, target, n);
  }
}
