/**
 * The game generator: the numbers ranked by how often they were drawn, cut
 * into pickSize chunks, then a loop of candidates (one number per chunk in
 * the first phase, distinct numbers from the most drawn ones in the second)
 * until one passes the validator or the attempts run out.
 *
 * Three versions are modelled side by side: the modular one (optional
 * bounds, second phase over the first floor(0.65 n) numbers), the layered
 * one (parity and prime profile, second phase over the first 50 numbers)
 * and the monolith (profile checks for the Quina, 5000 attempts, first phase
 * only). Math.random is a stream of draws as in the simulation's generators.
 */
module Generator {
  import opened Wrappers
  import opened Seqs
  import opened Text
  import opened Combinatorics
  import opened GameStats
  import opened Validation
  import opened Core
  import opened Strata
  import opened Sampling
  import opened Filters
  import opened Computed
  import Primes

  /** The lottery's shape: totalNumbers and pickSize. */
  const TotalNumbers: nat := 80
  const PickSize: nat := 5

  /** The validator the generator applies, per version. */
  datatype GenRules =
    | Modular(cfg: BoundsConfig)
    | Layered(profile: ProfileConfig)
    | Monolith(profile: ProfileConfig)

  /** The generated game: the numbers written with two digits, and their statistics. */
  datatype GeneratedGame = GeneratedGame(numbers: seq<string>, stats: Stats)

  /** 5000 attempts in the monolith, 10000 otherwise. */
  function MaxAttempts(rules: GenRules): nat
  {
    if rules.Monolith? then 5000 else 10000
  }

  /** Attempts (counted from 1) below 2000 pick one number per chunk; the monolith always does. */
  predicate InPhaseOne(rules: GenRules, attempt: nat)
  {
    rules.Monolith? || attempt < 2000
  }

  /** The second phase's pool: the first 50 numbers, or the first floor(0.65 n), at most all of them. */
  function PoolSize(rules: GenRules, n: nat, len: nat): (size: nat)
    ensures size <= len
    ensures rules.Layered? ==> size == Min(50, len)
    ensures !rules.Layered? ==> size == Min(n * 65 / 100, len)
  {
    Min(if rules.Layered? then 50 else n * 65 / 100, len)
  }

  /** The validator of the version; success carries the candidate's statistics. */
  function Check(rules: GenRules, candidate: seq<int>, k: nat, primeList: seq<int>): (r: Option<Stats>)
    ensures r.Some? ==> r.value == AnalyzeGame(candidate, primeList)
    ensures rules.Modular? ==> (r.Some? <==>
      GenSumOk(Sum(candidate), rules.cfg) && CountBoundsOk(AnalyzeGame(candidate, primeList), rules.cfg))
    ensures rules.Monolith? ==> (r.Some? <==> MonolithAccepts(AnalyzeGame(candidate, primeList), rules.profile))
  {
    match rules
    case Modular(cfg) => IsValidGame(candidate, cfg, primeList)
    case Layered(profile) => IsValidProfile(candidate, profile, k, primeList)
    case Monolith(profile) =>
      var st := AnalyzeGame(candidate, primeList);
      if MonolithAccepts(st, profile) then Some(st) else None
  }

  /** Descending count: (a, b) => b.count - a.count as a key. */
  function ByCountDesc(): FreqEntry -> int
  {
    (e: FreqEntry) => -(e.count as int)
  }

  /**
   * sortedNumbersList: the numbers of the frequency table by descending count
   * (stably, so ties keep the table's order), or 1..n without a table.
   */
  function SortedNumbersList(table: seq<FreqEntry>, n: nat): (list: seq<int>)
    ensures |table| > 0 ==> |list| == |table|
    ensures |table| == 0 ==> list == Universe(n)
  {
    if |table| > 0 then Map(SortBy(table, ByCountDesc()), (e: FreqEntry) => ParseInt(e.number) as int)
    else Universe(n)
  }

  /** A key of the table is the two-digit form of a number of 1..80 that parseInt reads back. */
  lemma KeyNumber(key: string)
    requires IsKey(key)
    ensures 1 <= ParseInt(key) <= 80 && Pad2(ParseInt(key)) == key
  {
    var x: nat :| 1 <= x <= 80 && key == Pad2(x);
    Pad2Value(x);
  }

  /**
   * Ranked from a table of keys with their counts, the list holds numbers of
   * 1..80, the most drawn first.
   */
  lemma RankedList(table: seq<FreqEntry>, results: seq<Row>)
    requires |table| > 0
    requires forall e :: e in table ==> IsKey(e.number) && e.count == Occurrences(results, e.number)
    ensures var list := SortedNumbersList(table, TotalNumbers);
      InRange(list, 1, 80) &&
      forall i, j :: 0 <= i < j < |list| ==> Occurrences(results, Pad2(list[i])) >= Occurrences(results, Pad2(list[j]))
  {
    var sorted := SortBy(table, ByCountDesc());
    var list := SortedNumbersList(table, TotalNumbers);
    forall i | 0 <= i < |list|
      ensures 1 <= list[i] <= 80 && Occurrences(results, Pad2(list[i])) == sorted[i].count
    {
      assert sorted[i] in multiset(table);
      KeyNumber(sorted[i].number);
    }
    forall i, j | 0 <= i < j < |list|
      ensures Occurrences(results, Pad2(list[i])) >= Occurrences(results, Pad2(list[j]))
    {
      assert ByCountDesc()(sorted[i]) <= ByCountDesc()(sorted[j]);
    }
  }

  /**
   * Ranked from the frequency table, the list holds 80 numbers of 1..80, the
   * most drawn first.
   */
  lemma SortedNumbersRanked(results: seq<Row>, column: FreqColumn, order: SortOrder)
    ensures var list := SortedNumbersList(FrequencyTable(results, column, order), TotalNumbers);
      |list| == 80 && InRange(list, 1, 80) &&
      forall i, j :: 0 <= i < j < |list| ==> Occurrences(results, Pad2(list[i])) >= Occurrences(results, Pad2(list[j]))
  {
    if |results| > 0 {
      FrequencyTableCounts(results, column, order);
      RankedList(FrequencyTable(results, column, order), results);
    }
  }

  /**
   * The order the frequency table leaves among numbers drawn equally often:
   * key order under the count column, ascending or descending number under
   * the number column.
   */
  function TableRank(column: FreqColumn, order: SortOrder, x: int): int
  {
    if column == CountColumn then KeyIndex(x) else if order == Asc then x else -x
  }

  /** TableRank of an entry's number. */
  function EntryRank(column: FreqColumn, order: SortOrder): FreqEntry -> int
  {
    (e: FreqEntry) => TableRank(column, order, ParseInt(e.number))
  }

  /** In the frequency table, entries with equal counts come in TableRank order. */
  lemma TableTiesOrdered(results: seq<Row>, column: FreqColumn, order: SortOrder)
    requires |results| > 0
    ensures TiesOrdered(FrequencyTable(results, column, order), ByCountDesc(), EntryRank(column, order))
  {
    var t := FrequencyTable(results, column, order);
    forall a, b | 0 <= a < b < |t| && ByCountDesc()(t[a]) == ByCountDesc()(t[b])
      ensures EntryRank(column, order)(t[a]) < EntryRank(column, order)(t[b])
    {
      TableTieOrdered(results, column, order, a, b);
    }
  }

  /** One pair of TableTiesOrdered: an earlier entry with the same count has the smaller TableRank. */
  lemma TableTieOrdered(results: seq<Row>, column: FreqColumn, order: SortOrder, a: nat, b: nat)
    requires |results| > 0 && a < b < |FrequencyTable(results, column, order)|
    requires FrequencyTable(results, column, order)[a].count == FrequencyTable(results, column, order)[b].count
    ensures var t := FrequencyTable(results, column, order);
      TableRank(column, order, ParseInt(t[a].number)) < TableRank(column, order, ParseInt(t[b].number))
  {
    var t := FrequencyTable(results, column, order);
    FrequencyTableTies(results, column, order);
    if column == NumberColumn {
      NumbersStrictlyOrdered(results, order, a, b);
    } else {
      assert FreqKey(column, order)(t[a]) == FreqKey(column, order)(t[b]);
    }
  }

  /** Under the number column no two entries share a number, so the table is strictly ordered by it. */
  lemma NumbersStrictlyOrdered(results: seq<Row>, order: SortOrder, a: nat, b: nat)
    requires |results| > 0 && a < b < |FrequencyTable(results, NumberColumn, order)|
    ensures var t := FrequencyTable(results, NumberColumn, order);
      TableRank(NumberColumn, order, ParseInt(t[a].number)) < TableRank(NumberColumn, order, ParseInt(t[b].number))
  {
    var t := FrequencyTable(results, NumberColumn, order);
    FrequencyTableTies(results, NumberColumn, order);
    FrequencyTableOrder(results, NumberColumn, order, a, b);
    assert FreqKey(NumberColumn, order)(t[a]) == FreqKey(NumberColumn, order)(t[b]) ==> KeyRank(t[a]) < KeyRank(t[b]);
  }

  /**
   * The count sort is stable, so numbers drawn equally often stay in the
   * order the frequency table had them in.
   */
  lemma SortedNumbersTies(results: seq<Row>, column: FreqColumn, order: SortOrder)
    requires |results| > 0
    ensures var list := SortedNumbersList(FrequencyTable(results, column, order), TotalNumbers);
      InRange(list, 1, 80) &&
      forall i, j :: 0 <= i < j < |list| && Occurrences(results, Pad2(list[i])) == Occurrences(results, Pad2(list[j])) ==>
        TableRank(column, order, list[i]) < TableRank(column, order, list[j])
  {
    SortedNumbersRanked(results, column, order);
    var t := FrequencyTable(results, column, order);
    var sorted := SortBy(t, ByCountDesc());
    var list := SortedNumbersList(t, TotalNumbers);
    assert forall i :: 0 <= i < |list| ==>
        list[i] == ParseInt(sorted[i].number) && Occurrences(results, Pad2(list[i])) == sorted[i].count by {
      FrequencyTableCounts(results, column, order);
      forall i | 0 <= i < |list|
        ensures list[i] == ParseInt(sorted[i].number) && Occurrences(results, Pad2(list[i])) == sorted[i].count
      {
        assert sorted[i] in multiset(t);
        KeyNumber(sorted[i].number);
      }
    }
    assert TiesOrdered(sorted, ByCountDesc(), EntryRank(column, order)) by {
      TableTiesOrdered(results, column, order);
      SortByTies(t, ByCountDesc(), EntryRank(column, order));
    }
    forall i, j | 0 <= i < j < |list| && Occurrences(results, Pad2(list[i])) == Occurrences(results, Pad2(list[j]))
      ensures TableRank(column, order, list[i]) < TableRank(column, order, list[j])
    {
      assert ByCountDesc()(sorted[i]) == ByCountDesc()(sorted[j]);
      assert EntryRank(column, order)(sorted[i]) < EntryRank(column, order)(sorted[j]);
    }
  }

  /** A first-phase candidate: from each chunk one number, or any number of 1..n for an empty chunk. */
  function PhaseOnePick(draws: seq<nat>, p: nat, chunks: seq<seq<int>>, n: nat): (picked: seq<int>)
    requires n >= 1
    ensures |picked| == |chunks|
    ensures forall i :: 0 <= i < |chunks| && |chunks[i]| == 0 ==> 1 <= picked[i] <= n
    ensures forall i :: 0 <= i < |chunks| && |chunks[i]| > 0 ==> picked[i] in chunks[i]
  {
    seq(|chunks|, i requires 0 <= i < |chunks| =>
      if |chunks[i]| == 0 then Draw(draws, p + i) % n + 1 else chunks[i][Draw(draws, p + i) % |chunks[i]|])
  }

  /**
   * The second phase's draws, one at a time from picks `picked` after `used`
   * draws: a pool number not yet picked is appended, until k are picked, the
   * draws run out or the pool is empty.
   */
  function PhaseTwoFrom(draws: seq<nat>, p: nat, pool: seq<int>, k: nat, picked: seq<int>, used: nat): (r: (seq<int>, nat))
    ensures picked <= r.0 && used <= r.1
    ensures |picked| <= k ==> |r.0| <= k
    ensures (forall x :: x in picked ==> x in pool) ==> forall x :: x in r.0 ==> x in pool
    ensures |r.0| < k && |pool| > 0 ==> p + r.1 >= |draws|
    decreases |draws| - (p + used)
  {
    if |picked| < k && p + used < |draws| && |pool| > 0 then
      var rnd := pool[draws[p + used] % |pool|];
      PhaseTwoFrom(draws, p, pool, k, if rnd in picked then picked else picked + [rnd], used + 1)
    else
      (picked, used)
  }

  /**
   * A second-phase candidate: numbers of the pool, each kept once, until k
   * are picked. An empty pool yields nothing.
   */
  method PhaseTwoPick(draws: seq<nat>, p: nat, pool: seq<int>, k: nat) returns (picked: seq<int>, used: nat)
    ensures (picked, used) == PhaseTwoFrom(draws, p, pool, k, [], 0)
    ensures Distinct(picked) && |picked| <= k
    ensures forall x :: x in picked ==> x in pool
    ensures |picked| < k && |pool| > 0 ==> p + used >= |draws|
  {
    picked := [];
    used := 0;
    while |picked| < k && p + used < |draws| && |pool| > 0
      invariant PhaseTwoFrom(draws, p, pool, k, picked, used) == PhaseTwoFrom(draws, p, pool, k, [], 0)
      invariant Distinct(picked) && |picked| <= k
      invariant forall x :: x in picked ==> x in pool
      decreases |draws| - (p + used)
    {
      var rnd := pool[draws[p + used] % |pool|];
      if rnd !in picked {
        picked := picked + [rnd];
      }
      used := used + 1;
    }
  }

  /**
   * What a generated game guarantees: its numbers read back as k ascending
   * distinct numbers of [1, n], written with two digits, that pass the
   * version's validator with the statistics the game carries.
   */
  predicate GeneratedValid(game: GeneratedGame, rules: GenRules, n: nat, k: nat, primeList: seq<int>)
  {
    var vs := Map(game.numbers, ParseInt);
    IsGame(vs, n, k) && game.numbers == PadAll(vs) && Check(rules, vs, k, primeList) == Some(game.stats)
  }

  /** The candidate as the loop keeps it: [...new Set(picked)] sorted ascending. */
  function Normalized(picked: seq<int>): (c: seq<int>)
    ensures multiset(c) == multiset(Dedup(picked))
  {
    SortAscending(Dedup(picked))
  }

  /** A normalized candidate of k numbers drawn from [1, n] is a game. */
  lemma NormalizedIsGame(picked: seq<int>, n: nat, k: nat)
    requires InRange(picked, 1, n) && |Normalized(picked)| == k
    ensures IsGame(Normalized(picked), n, k)
  {
    var d := Dedup(picked);
    forall i | 0 <= i < |d|
      ensures 1 <= d[i] <= n
    {
      assert d[i] in picked;
    }
    SortedCandidate(d, 1, n);
  }

  /** The candidate of attempt `attempt` (counted from 1) from draw p on, and the draws it used. */
  function CandidateOf(rules: GenRules, attempt: nat, list: seq<int>, chunks: seq<seq<int>>, n: nat, k: nat,
                       draws: seq<nat>, p: nat): (r: (seq<int>, nat))
    requires n >= 1
    ensures InPhaseOne(rules, attempt) ==> |r.0| == |chunks|
    ensures !InPhaseOne(rules, attempt) ==> |r.0| <= k
  {
    if InPhaseOne(rules, attempt) then (PhaseOnePick(draws, p, chunks, n), |chunks|)
    else PhaseTwoFrom(draws, p, list[..PoolSize(rules, n, |list|)], k, [], 0)
  }

  /** Every chunk's numbers come from the list it was cut from. */
  lemma ChunksInList(list: seq<int>, k: nat)
    requires k >= 1
    ensures forall i, x :: 0 <= i < k && x in ChunksOf(list, k)[i] ==> x in list
  {
    var chunks := ChunksOf(list, k);
    forall i, x | 0 <= i < k && x in chunks[i]
      ensures x in list
    {
      var q := InChunkPosition(list, ChunkSize(|list|, k), i, x);
    }
  }

  /** A candidate drawn from a list of numbers of [1, n] and its chunks holds numbers of [1, n]. */
  lemma CandidateInRange(rules: GenRules, attempt: nat, list: seq<int>, chunks: seq<seq<int>>, n: nat, k: nat,
                         draws: seq<nat>, p: nat)
    requires n >= 1 && InRange(list, 1, n)
    requires forall i, x :: 0 <= i < |chunks| && x in chunks[i] ==> x in list
    ensures InRange(CandidateOf(rules, attempt, list, chunks, n, k, draws, p).0, 1, n)
  {
    var picked := CandidateOf(rules, attempt, list, chunks, n, k, draws, p).0;
    if InPhaseOne(rules, attempt) {
      forall i | 0 <= i < |picked|
        ensures 1 <= picked[i] <= n
      {
        if |chunks[i]| > 0 {
          var x := picked[i];
          assert x in list;
        }
      }
    } else {
      var pool := list[..PoolSize(rules, n, |list|)];
      forall i | 0 <= i < |picked|
        ensures 1 <= picked[i] <= n
      {
        var x := picked[i];
        assert x in picked;
        var j :| 0 <= j < |pool| && pool[j] == x;
        assert list[j] == x;
      }
    }
  }

  /** Normalizing keeps the numbers in [lo, hi]. */
  lemma NormalizedInRange(picked: seq<int>, lo: int, hi: int)
    requires InRange(picked, lo, hi)
    ensures InRange(Normalized(picked), lo, hi)
  {
    var c := Normalized(picked);
    forall i | 0 <= i < |c|
      ensures lo <= c[i] <= hi
    {
      assert c[i] in multiset(c);
      assert c[i] in Dedup(picked);
    }
  }

  /** One loop iteration's candidate, before normalization: first or second phase. */
  method Candidate(rules: GenRules, attempt: nat, list: seq<int>, chunks: seq<seq<int>>, n: nat, k: nat,
                   draws: seq<nat>, p: nat) returns (picked: seq<int>, used: nat)
    requires n >= 1 && InRange(list, 1, n)
    requires forall i, x :: 0 <= i < |chunks| && x in chunks[i] ==> x in list
    ensures (picked, used) == CandidateOf(rules, attempt, list, chunks, n, k, draws, p)
    ensures InRange(picked, 1, n)
    ensures InPhaseOne(rules, attempt) ==> picked == PhaseOnePick(draws, p, chunks, n)
    ensures !InPhaseOne(rules, attempt) ==> forall x :: x in picked ==> x in list[..PoolSize(rules, n, |list|)]
  {
    if InPhaseOne(rules, attempt) {
      picked := PhaseOnePick(draws, p, chunks, n);
      used := |chunks|;
    } else {
      picked, used := PhaseTwoPick(draws, p, list[..PoolSize(rules, n, |list|)], k);
    }
    CandidateInRange(rules, attempt, list, chunks, n, k, draws, p);
  }

  /** A normalized candidate the loop accepts: k numbers that pass the version's validator. */
  predicate Passes(rules: GenRules, c: seq<int>, k: nat, primeList: seq<int>)
  {
    |c| == k && Check(rules, c, k, primeList).Some?
  }

  /** Attempt `attempt`'s candidate from draw p on, normalized, and the draws it used. */
  function NextCandidate(rules: GenRules, list: seq<int>, n: nat, k: nat, draws: seq<nat>, attempt: nat, p: nat)
    : (r: (seq<int>, nat))
    requires n >= 1 && k >= 1 && InRange(list, 1, n)
    ensures InRange(r.0, 1, n)
  {
    var cu := CandidateOf(rules, attempt, list, ChunksOf(list, k), n, k, draws, p);
    ChunksInList(list, k);
    CandidateInRange(rules, attempt, list, ChunksOf(list, k), n, k, draws, p);
    NormalizedInRange(cu.0, 1, n);
    (Normalized(cu.0), cu.1)
  }

  /**
   * The loop's draws, for any way `step` of turning attempt a, drawing from
   * position q on, into a candidate and the draws it used.
   */
  type Step = (nat, nat) -> (seq<int>, nat)

  /** The candidate step of the generator: NextCandidate of the version, list and draws. */
  function CandidateStep(rules: GenRules, list: seq<int>, n: nat, k: nat, draws: seq<nat>): (step: Step)
    requires n >= 1 && k >= 1 && InRange(list, 1, n)
    ensures forall a, q :: InRange(step(a, q).0, 1, n)
  {
    (a, q) => NextCandidate(rules, list, n, k, draws, a, q)
  }

  /** The draws spent by the first i attempts: where attempt i + 1 starts drawing. */
  function DrawsBefore(step: Step, i: nat): nat
  {
    if i == 0 then 0
    else
      var q := DrawsBefore(step, i - 1);
      q + step(i, q).1
  }

  /**
   * Every candidate the draws yield from attempt i + 1 on, one per attempt
   * up to max, whether or not an earlier one passed.
   */
  function TriedFrom(step: Step, max: nat, i: nat): (ts: seq<seq<int>>)
    requires i <= max
    ensures |ts| == max - i
    decreases max - i
  {
    if i == max then []
    else [step(i + 1, DrawsBefore(step, i)).0] + TriedFrom(step, max, i + 1)
  }

  /** The candidates of all max attempts. */
  function Tried(step: Step, max: nat): (ts: seq<seq<int>>)
    ensures |ts| == max
  {
    TriedFrom(step, max, 0)
  }

  /** The j-th tried candidate is attempt j + 1's, drawn from where the earlier attempts stopped. */
  lemma {:induction false} TriedAt(step: Step, max: nat, i: nat, j: nat)
    requires i <= j < max
    ensures TriedFrom(step, max, i)[j - i] == step(j + 1, DrawsBefore(step, j)).0
    decreases j - i
  {
    if i < j {
      TriedAt(step, max, i + 1, j);
    }
  }

  /** A step whose candidates lie in [1, n] tries only candidates in [1, n]. */
  lemma TriedInRange(step: Step, max: nat, n: nat)
    requires forall a, q :: InRange(step(a, q).0, 1, n)
    ensures forall j :: 0 <= j < max ==> InRange(Tried(step, max)[j], 1, n)
  {
    forall j | 0 <= j < max
      ensures InRange(Tried(step, max)[j], 1, n)
    {
      TriedAt(step, max, 0, j);
    }
  }

  /**
   * What the loop keeps of a candidate: the game, padded with its statistics,
   * when it passes. Every candidate the loop draws lies in [1, n]
   * (TriedInRange), so the range test only makes the padding total.
   */
  function Outcome(rules: GenRules, c: seq<int>, n: nat, k: nat, primeList: seq<int>): (r: Option<GeneratedGame>)
    ensures r.Some? <==> InRange(c, 1, n) && Passes(rules, c, k, primeList)
    ensures r.Some? ==> Map(r.value.numbers, ParseInt) == c && r.value.stats == AnalyzeGame(c, primeList)
  {
    if InRange(c, 1, n) && Passes(rules, c, k, primeList) then
      PadAllParses(c);
      Some(GeneratedGame(PadAll(c), Check(rules, c, k, primeList).value))
    else
      None
  }

  /** How the loop judges a candidate: its outcome, or None to go on. */
  type Judge = seq<int> -> Option<GeneratedGame>

  /** The generator's judge: Outcome under the version, k and prime list. */
  function OutcomeOf(rules: GenRules, n: nat, k: nat, primeList: seq<int>): (judge: Judge)
    ensures forall c :: InRange(c, 1, n) ==> (judge(c).Some? <==> Passes(rules, c, k, primeList))
  {
    c => Outcome(rules, c, n, k, primeList)
  }

  /**
   * The loop over the candidates from attempt i on: the first that judge
   * keeps, as its outcome, and the attempt count the loop stops at.
   */
  function FirstPassing(ts: seq<seq<int>>, judge: Judge, i: nat): (r: (Option<GeneratedGame>, nat))
    requires i <= |ts|
    ensures i <= r.1 <= |ts|
    decreases |ts| - i
  {
    if i == |ts| then (None, i)
    else if judge(ts[i]).Some? then (judge(ts[i]), i + 1)
    else FirstPassing(ts, judge, i + 1)
  }

  /**
   * The loop finds nothing exactly when judge keeps no candidate, and then
   * spends every attempt; otherwise it stops at the first kept one.
   */
  lemma {:induction false} FirstPassingFirst(ts: seq<seq<int>>, judge: Judge, i: nat)
    requires i <= |ts|
    ensures var r := FirstPassing(ts, judge, i);
            (r.0.None? <==> forall j :: i <= j < |ts| ==> judge(ts[j]).None?)
            && (r.0.None? ==> r.1 == |ts|)
            && (r.0.Some? ==>
                  i < r.1 && r.0 == judge(ts[r.1 - 1])
                  && forall j :: i <= j < r.1 - 1 ==> judge(ts[j]).None?)
    decreases |ts| - i
  {
    if i < |ts| && judge(ts[i]).None? {
      FirstPassingFirst(ts, judge, i + 1);
    }
  }

  /**
   * One step of the loop against the candidates it tries: attempt i + 1's
   * candidate is the i-th tried one, and the scan from i stops there or goes on.
   */
  lemma ScanAdvance(step: Step, judge: Judge, max: nat, i: nat, p: nat)
    requires i < max && p == DrawsBefore(step, i)
    ensures DrawsBefore(step, i + 1) == p + step(i + 1, p).1
    ensures var all := Tried(step, max);
            var c := step(i + 1, p).0;
            FirstPassing(all, judge, i)
            == if judge(c).Some? then (judge(c), i + 1) else FirstPassing(all, judge, i + 1)
  {
    TriedAt(step, max, 0, i);
    assert Tried(step, max)[i] == step(i + 1, p).0;
  }

  /** One attempt of the loop: its candidate's outcome, and the draws it used. */
  method Attempt(rules: GenRules, list: seq<int>, chunks: seq<seq<int>>, n: nat, k: nat, draws: seq<nat>,
                 primeList: seq<int>, attempt: nat, p: nat) returns (game: Option<GeneratedGame>, used: nat)
    requires n >= 1 && k >= 1 && InRange(list, 1, n) && chunks == ChunksOf(list, k)
    ensures used == CandidateStep(rules, list, n, k, draws)(attempt, p).1
    ensures game == OutcomeOf(rules, n, k, primeList)(CandidateStep(rules, list, n, k, draws)(attempt, p).0)
    ensures game.Some? ==> GeneratedValid(game.value, rules, n, k, primeList)
  {
    ChunksInList(list, k);
    var picked;
    picked, used := Candidate(rules, attempt, list, chunks, n, k, draws, p);
    var candidate := Normalized(picked);
    assert CandidateStep(rules, list, n, k, draws)(attempt, p) == (candidate, used);
    assert OutcomeOf(rules, n, k, primeList)(candidate) == Outcome(rules, candidate, n, k, primeList);
    game := None;
    if |candidate| == k {
      var check := Check(rules, candidate, k, primeList);
      if check.Some? {
        NormalizedIsGame(picked, n, k);
        PadAllParses(candidate);
        game := Some(GeneratedGame(PadAll(candidate), check.value));
      }
    }
  }

  /**
   * One iteration of generateOptimizedGame's loop, against the scan over every
   * tried candidate: it either stops the scan at attempt i + 1 or leaves the
   * rest of the scan to the next attempts.
   */
  method Advance(rules: GenRules, list: seq<int>, chunks: seq<seq<int>>, n: nat, k: nat, draws: seq<nat>,
                 primeList: seq<int>, ghost all: seq<seq<int>>, i: nat, p: nat)
    returns (game: Option<GeneratedGame>, q: nat)
    requires n >= 1 && k >= 1 && InRange(list, 1, n) && chunks == ChunksOf(list, k)
    requires all == Tried(CandidateStep(rules, list, n, k, draws), |all|)
    requires i < |all| && p == DrawsBefore(CandidateStep(rules, list, n, k, draws), i)
    ensures game.None? ==>
              q == DrawsBefore(CandidateStep(rules, list, n, k, draws), i + 1)
              && FirstPassing(all, OutcomeOf(rules, n, k, primeList), i + 1)
                 == FirstPassing(all, OutcomeOf(rules, n, k, primeList), i)
    ensures game.Some? ==> (game, i + 1) == FirstPassing(all, OutcomeOf(rules, n, k, primeList), i)
    ensures game.Some? ==> GeneratedValid(game.value, rules, n, k, primeList)
  {
    ScanAdvance(CandidateStep(rules, list, n, k, draws), OutcomeOf(rules, n, k, primeList), |all|, i, p);
    var used;
    game, used := Attempt(rules, list, chunks, n, k, draws, primeList, i + 1, p);
    q := p + used;
  }

  /**
   * generateOptimizedGame's loop: candidates until one of k numbers passes the
   * validator, at most MaxAttempts(rules) of them.
   */
  method Generate(rules: GenRules, list: seq<int>, n: nat, k: nat, draws: seq<nat>, primeList: seq<int>)
    returns (best: Option<GeneratedGame>, attempts: nat)
    requires n >= 1 && k >= 1 && InRange(list, 1, n)
    ensures (best, attempts)
            == FirstPassing(Tried(CandidateStep(rules, list, n, k, draws), MaxAttempts(rules)), OutcomeOf(rules, n, k, primeList), 0)
    ensures attempts <= MaxAttempts(rules)
    ensures best.None? ==> attempts == MaxAttempts(rules)
    ensures best.Some? ==> GeneratedValid(best.value, rules, n, k, primeList)
  {
    var chunks := ChunksOf(list, k);
    ghost var step := CandidateStep(rules, list, n, k, draws);
    ghost var all := Tried(step, MaxAttempts(rules));
    ghost var judge := OutcomeOf(rules, n, k, primeList);
    best := None;
    attempts := 0;
    var p: nat := 0;
    while attempts < MaxAttempts(rules)
      invariant attempts <= MaxAttempts(rules)
      invariant best.None? && p == DrawsBefore(step, attempts)
      invariant FirstPassing(all, judge, attempts) == FirstPassing(all, judge, 0)
      decreases MaxAttempts(rules) - attempts
    {
      best, p := Advance(rules, list, chunks, n, k, draws, primeList, all, attempts, p);
      attempts := attempts + 1;
      if best.Some? {
        return;
      }
    }
  }

  /** The generator's state: the last generated game and the form it was generated under. */
  class GeneratorPanel {
    var generatedGame: Option<GeneratedGame>
    var rules: GenRules
    const primeList: seq<int>

    predicate Valid()
      reads this
    {
      generatedGame.Some? ==> GeneratedValid(generatedGame.value, rules, TotalNumbers, PickSize, primeList)
    }

    /** No game yet; the prime list is the sieve's primes up to totalNumbers. */
    constructor (rules: GenRules)
      ensures Valid() && generatedGame.None? && this.rules == rules
      ensures primeList == Primes.PrimesUpTo(TotalNumbers)
    {
      var primes := Primes.GeneratePrimes(TotalNumbers);
      this.rules := rules;
      generatedGame := None;
      primeList := primes;
    }

    /**
     * generateOptimizedGame: the game is cleared, then set to the first
     * candidate that passes; alerted tells that none did.
     */
    method GenerateOptimizedGame(results: seq<Row>, column: FreqColumn, order: SortOrder, draws: seq<nat>)
      returns (alerted: bool)
      modifies this`generatedGame
      ensures Valid()
      ensures alerted <==> generatedGame.None?
      ensures var list := SortedNumbersList(FrequencyTable(results, column, order), TotalNumbers);
              InRange(list, 1, TotalNumbers)
              && var all := Tried(CandidateStep(rules, list, TotalNumbers, PickSize, draws), MaxAttempts(rules));
              (forall j :: 0 <= j < |all| ==> InRange(all[j], 1, TotalNumbers))
              && generatedGame == FirstPassing(all, OutcomeOf(rules, TotalNumbers, PickSize, primeList), 0).0
              && (alerted <==> forall j :: 0 <= j < |all| ==> !Passes(rules, all[j], PickSize, primeList))
    {
      generatedGame := None;
      var table := BuildFrequencyTable(results, column, order);
      var list := SortedNumbersList(table, TotalNumbers);
      SortedNumbersRanked(results, column, order);
      var best, attempts := Generate(rules, list, TotalNumbers, PickSize, draws, primeList);
      TriedInRange(CandidateStep(rules, list, TotalNumbers, PickSize, draws), MaxAttempts(rules), TotalNumbers);
      FirstPassingFirst(Tried(CandidateStep(rules, list, TotalNumbers, PickSize, draws), MaxAttempts(rules)),
                        OutcomeOf(rules, TotalNumbers, PickSize, primeList), 0);
      generatedGame := best;
      alerted := best.None?;
    }
  }
}
