/**
 * The values the result page derives from the loaded results: the list
 * filtered by start date and ordered by game number, its pages, the
 * frequency table of the numbers 01..80, the balls per decade, and the
 * bucketed tallies (even count, prime count, sum interval) of the games.
 */
module Computed {
  import opened Seqs
  import opened Text
  import opened Core
  import opened GameStats
  import opened Validation
  import opened Strata
  import opened Filters

  // ---------------------------------------------------------------------------
  // The ordered result list and its pages

  /** The rows on or after the start date; every row when no start date is chosen. */
  function AfterStart(results: seq<Row>, start: Bound): (list: seq<Row>)
    ensures forall r :: r in list <==> r in results && AtLeast(r.stats.time, start)
    ensures start.Unset? ==> list == results
  {
    if start.Unset? then results else Filter(results, (r: Row) => r.stats.time >= start.v)
  }

  /** sortedResults of the computed block: the date-filtered rows, stably ordered by game number. */
  function DateSortedResults(results: seq<Row>, start: Bound, order: SortOrder): (sorted: seq<Row>)
    ensures multiset(sorted) == multiset(AfterStart(results, start))
    ensures SortedBy(sorted, GameKey(order))
  {
    SortBy(AfterStart(results, start), GameKey(order))
  }

  /** The ordered list holds exactly the rows dated on or after the start, and all rows without one. */
  lemma DateSortedMembers(results: seq<Row>, start: Bound, order: SortOrder, r: Row)
    ensures r in DateSortedResults(results, start, order) <==> r in results && AtLeast(r.stats.time, start)
    ensures start.Unset? ==> multiset(DateSortedResults(results, start, order)) == multiset(results)
  {
    var list := AfterStart(results, start);
    assert r in DateSortedResults(results, start, order) <==> r in multiset(list);
  }

  /** Math.ceil(len / size): the fewest pages of size rows that hold len rows. */
  function TotalPages(len: nat, size: nat): (pages: nat)
    requires size >= 1
    ensures size * pages >= len
    ensures pages == 0 || size * (pages - 1) < len
  {
    CeilDiv(len, size)
  }

  /** paginatedResults: the rows of page page (from 1), slice [(page - 1) * size, page * size). */
  function Paginated<T>(list: seq<T>, page: nat, size: nat): (p: seq<T>)
    requires page >= 1
    ensures |p| <= size
    ensures forall i :: 0 <= i < |p| ==> (page - 1) * size + i < |list| && p[i] == list[(page - 1) * size + i]
    ensures size >= 1 ==> ((page - 1) * size < |list| <==> |p| > 0)
  {
    Slice(list, (page - 1) * size, (page - 1) * size + size)
  }

  /** The pages 1..TotalPages, read in order, give back the whole list. */
  lemma PagesCoverList<T>(list: seq<T>, size: nat)
    requires size >= 1
    ensures var pages := TotalPages(|list|, size);
      Flatten(seq(pages, j requires 0 <= j < pages => Paginated(list, j + 1, size))) == list
  {
    var pages := TotalPages(|list|, size);
    var ps := seq(pages, j requires 0 <= j < pages => Paginated(list, j + 1, size));
    var cs := seq(pages, j requires 0 <= j < pages => Chunk(list, size, j));
    forall j | 0 <= j < pages
      ensures ps[j] == cs[j]
    {
      assert (j + 1 - 1) * size + size == (j + 1) * size;
    }
    assert ps == cs;
    FlattenPrefix(list, size, pages);
    assert Min(pages * size, |list|) == |list|;
  }

  /** A page holds rows exactly when its number is at most the page count. */
  lemma PageNonEmpty<T>(list: seq<T>, page: nat, size: nat)
    requires page >= 1 && size >= 1
    ensures |Paginated(list, page, size)| > 0 <==> page <= TotalPages(|list|, size)
  {
    var pages := TotalPages(|list|, size);
    var lo := (page - 1) * size;
    assert |Paginated(list, page, size)| > 0 <==> lo < |list|;
    if page <= pages {
      MulLe(page - 1, pages - 1, size);
      assert size * (pages - 1) == (pages - 1) * size;
    } else {
      MulLe(pages, page - 1, size);
      assert size * pages == pages * size;
    }
  }

  // ---------------------------------------------------------------------------
  // The frequency table

  datatype FreqColumn = NumberColumn | CountColumn

  /** One line of the table: the two-digit number and how often it was drawn. */
  datatype FreqEntry = FreqEntry(number: string, count: nat)

  /** One of the keys "01".."80" that the counting map starts with. */
  predicate IsKey(key: string)
  {
    exists x: nat :: 1 <= x <= 80 && key == Pad2(x)
  }

  /**
   * The numbers behind the keys of the counting map in the order a JavaScript
   * object lists them: the integer-like keys "10".."80" first, ascending, then
   * "01".."09" in insertion order.
   */
  function KeyOrder(): (order: seq<nat>)
    ensures |order| == 80
    ensures forall i :: 0 <= i < 80 ==> 1 <= order[i] <= 80
    ensures forall i :: 0 <= i < 71 ==> order[i] == i + 10
    ensures forall i :: 71 <= i < 80 ==> order[i] == i - 70
  {
    seq(80, i requires 0 <= i < 80 => if i < 71 then i + 10 else i - 70)
  }

  /** The map before counting: each of "01".."80" mapped to 0. */
  method ZeroCounts() returns (counts: map<string, nat>)
    ensures forall x: nat :: 1 <= x <= 80 ==> Pad2(x) in counts
    ensures forall key :: key in counts ==> IsKey(key) && counts[key] == 0
  {
    counts := map[];
    var x := 1;
    while x <= 80
      invariant 1 <= x <= 81
      invariant forall y: nat :: 1 <= y < x ==> Pad2(y) in counts
      invariant forall key :: key in counts ==> IsKey(key) && counts[key] == 0
    {
      counts := counts[Pad2(x) := 0];
      x := x + 1;
    }
  }

  /** The balls of one game counted into the map; a ball that is not a key is passed over. */
  method CountGame(counts: map<string, nat>, nums: seq<string>) returns (next: map<string, nat>)
    ensures next.Keys == counts.Keys
    ensures forall key :: key in next ==> next[key] == counts[key] + CountIn(nums, key)
  {
    next := counts;
    var j := 0;
    while j < |nums|
      invariant 0 <= j <= |nums|
      invariant next.Keys == counts.Keys
      invariant forall key :: key in next ==> next[key] == counts[key] + CountIn(nums[..j], key)
    {
      var b := nums[j];
      assert nums[..j + 1][..j] == nums[..j];
      if b in next {
        next := next[b := next[b] + 1];
      }
      j := j + 1;
    }
    assert nums[..j] == nums;
  }

  /**
   * The counting part of frequencyTable: a map from "01".."80" to 0, then one
   * increment per ball whose string is one of those keys.
   */
  method FrequencyCounts(results: seq<Row>) returns (counts: map<string, nat>)
    ensures forall x: nat :: 1 <= x <= 80 ==> Pad2(x) in counts
    ensures forall key :: key in counts ==> IsKey(key) && counts[key] == Occurrences(results, key)
  {
    counts := ZeroCounts();
    ghost var keys := counts.Keys;
    var i := 0;
    while i < |results|
      invariant 0 <= i <= |results|
      invariant counts.Keys == keys
      invariant forall key :: key in counts ==> counts[key] == Occurrences(results[..i], key)
    {
      assert results[..i + 1][..i] == results[..i];
      counts := CountGame(counts, results[i].numbers);
      i := i + 1;
    }
    assert results[..i] == results;
  }

  /** The line of number x: its two-digit string and how often that string was drawn. */
  function Entry(results: seq<Row>, x: nat): FreqEntry
  {
    FreqEntry(Pad2(x), Occurrences(results, Pad2(x)))
  }

  /** The entries of the table before sorting: one per key, in key order. */
  function Entries(results: seq<Row>): (es: seq<FreqEntry>)
    ensures |es| == 80
    ensures forall i :: 0 <= i < 80 ==> es[i] == Entry(results, KeyOrder()[i])
  {
    seq(80, i requires 0 <= i < 80 => Entry(results, KeyOrder()[i]))
  }

  /** Where number x sits in the key order. */
  lemma KeyPosition(x: nat) returns (i: nat)
    requires 1 <= x <= 80
    ensures i < 80 && KeyOrder()[i] == x
  {
    i := KeyIndex(x);
  }

  /** The place of number x in the key order: 10..80 first, then 1..9. */
  function KeyIndex(x: int): int
  {
    if x >= 10 then x - 10 else x + 70
  }

  /** The place of an entry's number in the key order. */
  function KeyRank(e: FreqEntry): int
  {
    KeyIndex(ParseInt(e.number))
  }

  /** The comparator of the table as a key: number or count, negated for descending order. */
  function FreqKey(column: FreqColumn, order: SortOrder): FreqEntry -> int
  {
    (e: FreqEntry) =>
      var v := if column == NumberColumn then ParseInt(e.number) as int else e.count as int;
      if order == Asc then v else -v
  }

  /** frequencyTable without its colours: empty for no results, else the entries stably sorted. */
  function FrequencyTable(results: seq<Row>, column: FreqColumn, order: SortOrder): (table: seq<FreqEntry>)
    ensures |results| == 0 ==> table == []
    ensures |results| > 0 ==> multiset(table) == multiset(Entries(results)) && SortedBy(table, FreqKey(column, order))
  {
    if |results| == 0 then [] else SortBy(Entries(results), FreqKey(column, order))
  }

  /** The table has one entry per number 01..80, counting the balls drawn with that two-digit string. */
  lemma FrequencyTableCounts(results: seq<Row>, column: FreqColumn, order: SortOrder)
    requires |results| > 0
    ensures var table := FrequencyTable(results, column, order);
      |table| == 80 &&
      (forall e :: e in table ==> e.count == Occurrences(results, e.number) && IsKey(e.number)) &&
      (forall x: nat :: 1 <= x <= 80 ==> Entry(results, x) in table)
  {
    var table := FrequencyTable(results, column, order);
    var es := Entries(results);
    forall e | e in table
      ensures e.count == Occurrences(results, e.number) && IsKey(e.number)
    {
      assert e in multiset(es);
      var i :| 0 <= i < 80 && es[i] == e;
      assert 1 <= KeyOrder()[i] <= 80;
    }
    forall x: nat | 1 <= x <= 80
      ensures Entry(results, x) in table
    {
      var i := KeyPosition(x);
      assert es[i] in multiset(table);
    }
  }

  /**
   * The sort is stable: entries that compare equal keep the key order of the
   * counting map, so under the count column equal counts list "10".."80"
   * before "01".."09".
   */
  lemma FrequencyTableTies(results: seq<Row>, column: FreqColumn, order: SortOrder)
    requires |results| > 0
    ensures var t := FrequencyTable(results, column, order);
      forall i, j :: 0 <= i < j < |t| && FreqKey(column, order)(t[i]) == FreqKey(column, order)(t[j]) ==>
        KeyRank(t[i]) < KeyRank(t[j])
    ensures var t := FrequencyTable(results, column, order);
      column == CountColumn ==>
        forall i, j :: 0 <= i < j < |t| && t[i].count == t[j].count ==> KeyRank(t[i]) < KeyRank(t[j])
  {
    var t := FrequencyTable(results, column, order);
    var es := Entries(results);
    var key := FreqKey(column, order);
    forall i | 0 <= i < 80
      ensures KeyRank(es[i]) == i
    {
      Pad2Value(KeyOrder()[i]);
    }
    assert TiesOrdered(es, key, KeyRank);
    SortByTies(es, key, KeyRank);
    if column == CountColumn {
      forall i, j | 0 <= i < j < |t| && t[i].count == t[j].count
        ensures KeyRank(t[i]) < KeyRank(t[j])
      {
        assert key(t[i]) == key(t[j]);
      }
    }
  }

  /** The table is in the chosen order: by number or by count, ascending or descending. */
  lemma FrequencyTableOrder(results: seq<Row>, column: FreqColumn, order: SortOrder, i: nat, j: nat)
    requires i < j < |FrequencyTable(results, column, order)|
    ensures var t := FrequencyTable(results, column, order);
      match (column, order)
      case (NumberColumn, Asc) => ParseInt(t[i].number) <= ParseInt(t[j].number)
      case (NumberColumn, Desc) => ParseInt(t[i].number) >= ParseInt(t[j].number)
      case (CountColumn, Asc) => t[i].count <= t[j].count
      case (CountColumn, Desc) => t[i].count >= t[j].count
  {
    var t := FrequencyTable(results, column, order);
    assert FreqKey(column, order)(t[i]) <= FreqKey(column, order)(t[j]);
  }

  /** frequencyTable: count into the map, list its keys in object order, sort. */
  method BuildFrequencyTable(results: seq<Row>, column: FreqColumn, order: SortOrder) returns (table: seq<FreqEntry>)
    ensures table == FrequencyTable(results, column, order)
  {
    if |results| == 0 {
      return [];
    }
    var counts := FrequencyCounts(results);
    var keys := KeyOrder();
    var entries := seq(80, i requires 0 <= i < 80 => FreqEntry(Pad2(keys[i]), Get(counts, Pad2(keys[i]))));
    assert entries == Entries(results);
    table := SortBy(entries, FreqKey(column, order));
  }

  // ---------------------------------------------------------------------------
  // Balls per decade

  /** Math.floor(parseInt(ball) / 10). */
  function Decade(ball: string): nat
  {
    ParseInt(ball) / 10
  }

  function InDecade(d: nat): string -> bool
  {
    b => Decade(b) == d
  }

  /** Balls of all the games that satisfy p. */
  function BallsIn(games: seq<Row>, p: string -> bool): nat
  {
    if |games| == 0 then 0
    else BallsIn(games[..|games| - 1], p) + CountIf(games[|games| - 1].numbers, p)
  }

  function TotalBalls(games: seq<Row>): nat
  {
    if |games| == 0 then 0 else TotalBalls(games[..|games| - 1]) + |games[|games| - 1].numbers|
  }

  /** Every ball of the games lies in one of the nine decades 00-09 .. 80-89. */
  predicate BelowNinety(games: seq<Row>)
  {
    forall i, j :: 0 <= i < |games| && 0 <= j < |games[i].numbers| ==> Decade(games[i].numbers[j]) < 9
  }

  datatype DecadeBucket = DecadeBucket(name: string, count: nat)

  /** The label of decade d: both ends written with two digits, "00-09" .. "80-89". */
  function DecadeLabel(d: nat): (name: string)
    ensures name == Pad2(10 * d) + "-" + Pad2(10 * d + 9)
  {
    Pad2(10 * d) + "-" + Pad2(10 * d + 9)
  }

  /** The label reads back as the decade's first and last number. */
  lemma DecadeLabelReadsBack(d: nat)
    requires d < 9
    ensures var name := DecadeLabel(d);
      |name| == 5 && name[2] == '-' &&
      Value(name[..2]) == 10 * d && Value(name[3..]) == 10 * d + 9
  {
    Pad2Value(10 * d);
    Pad2Value(10 * d + 9);
    var name := DecadeLabel(d);
    assert name[..2] == Pad2(10 * d);
    assert name[3..] == Pad2(10 * d + 9);
  }

  function CountsOf(buckets: seq<DecadeBucket>): seq<int>
  {
    Map(buckets, (b: DecadeBucket) => b.count as int)
  }

  /** The balls of one game counted into the nine decade counters. */
  method CountDecades(counts: array<nat>, nums: seq<string>)
    requires counts.Length == 9
    requires forall j :: 0 <= j < |nums| ==> Decade(nums[j]) < 9
    modifies counts
    ensures forall d :: 0 <= d < 9 ==> counts[d] == old(counts[d]) + CountIf(nums, InDecade(d))
    ensures Sum(counts[..]) == Sum(old(counts[..])) + |nums|
  {
    var j := 0;
    while j < |nums|
      invariant 0 <= j <= |nums|
      invariant forall d :: 0 <= d < 9 ==> counts[d] == old(counts[d]) + CountIf(nums[..j], InDecade(d))
      invariant Sum(counts[..]) == Sum(old(counts[..])) + j
    {
      var d := Decade(nums[j]);
      forall e
        ensures CountIf(nums[..j + 1], InDecade(e)) == CountIf(nums[..j], InDecade(e)) + (if d == e then 1 else 0)
      {
        CountIfNext(nums, j, InDecade(e));
      }
      SumIncrement(counts[..], d);
      counts[d] := counts[d] + 1;
      j := j + 1;
    }
    assert nums[..j] == nums;
  }

  /**
   * decadeStats: nine counters, one increment per ball in the counter of its
   * decade, then one labelled bucket per counter.
   */
  method DecadeStats(results: seq<Row>) returns (buckets: seq<DecadeBucket>)
    requires BelowNinety(results)
    ensures |results| == 0 ==> buckets == []
    ensures |results| > 0 ==> |buckets| == 9
    ensures |results| > 0 ==>
      forall d :: 0 <= d < 9 ==> buckets[d] == DecadeBucket(DecadeLabel(d), BallsIn(results, InDecade(d)))
    ensures |results| > 0 ==> Sum(CountsOf(buckets)) == TotalBalls(results)
  {
    if |results| == 0 {
      return [];
    }
    var counts := new nat[9](_ => 0);
    ZeroSum(9);
    assert counts[..] == seq(9, _ => 0);
    var i := 0;
    while i < |results|
      invariant 0 <= i <= |results|
      invariant forall d :: 0 <= d < 9 ==> counts[d] == BallsIn(results[..i], InDecade(d))
      invariant Sum(counts[..]) == TotalBalls(results[..i])
    {
      assert results[..i + 1][..i] == results[..i];
      CountDecades(counts, results[i].numbers);
      i := i + 1;
    }
    assert results[..i] == results;
    var cs := counts[..];
    buckets := seq(9, d requires 0 <= d < 9 => DecadeBucket(DecadeLabel(d), cs[d]));
    assert CountsOf(buckets) == cs;
  }

  // ---------------------------------------------------------------------------
  // Tallies of the games by a value

  /** One tally line: a value and the number of games that have it. */
  datatype Bucket = Bucket(key: int, count: nat)

  function HasKey(f: Row -> int, key: int): Row -> bool
  {
    r => f(r) == key
  }

  /** stats[key] || 0. */
  function Count(stats: map<int, nat>, key: int): nat
  {
    if key in stats then stats[key] else 0
  }

  /** The counts of the keys, added up. */
  function KeySum(keys: seq<int>, stats: map<int, nat>): nat
  {
    if |keys| == 0 then 0 else Count(stats, keys[0]) + KeySum(keys[1..], stats)
  }

  /** The tally lines of the keys, in the order of the keys. */
  function BucketsOf(keys: seq<int>, stats: map<int, nat>): (bs: seq<Bucket>)
    ensures |bs| == |keys|
    ensures forall i :: 0 <= i < |keys| ==> bs[i] == Bucket(keys[i], Count(stats, keys[i]))
  {
    if |keys| == 0 then [] else [Bucket(keys[0], Count(stats, keys[0]))] + BucketsOf(keys[1..], stats)
  }

  /** The games a tally accounts for. */
  function Total(bs: seq<Bucket>): nat
  {
    if |bs| == 0 then 0 else bs[0].count + Total(bs[1..])
  }

  lemma {:induction false} TotalOfBuckets(keys: seq<int>, stats: map<int, nat>)
    ensures Total(BucketsOf(keys, stats)) == KeySum(keys, stats)
  {
    if |keys| > 0 {
      TotalOfBuckets(keys[1..], stats);
    }
  }

  lemma {:induction false} KeySumAppend(a: seq<int>, b: seq<int>, stats: map<int, nat>)
    ensures KeySum(a + b, stats) == KeySum(a, stats) + KeySum(b, stats)
  {
    if |a| == 0 {
      assert a + b == b;
    } else {
      assert (a + b)[1..] == a[1..] + b;
      KeySumAppend(a[1..], b, stats);
    }
  }

  /** Reordering the keys does not change the total. */
  lemma {:induction false} KeySumPermutation(s: seq<int>, t: seq<int>, stats: map<int, nat>)
    requires multiset(s) == multiset(t)
    ensures KeySum(s, stats) == KeySum(t, stats)
  {
    if |s| > 0 {
      assert s[0] in multiset(t);
      var i :| 0 <= i < |t| && t[i] == s[0];
      var rest := t[..i] + t[i + 1..];
      RemoveAt(t, i);
      assert s == [s[0]] + s[1..];
      assert multiset(s[1..]) == multiset(s) - multiset{s[0]};
      KeySumPermutation(s[1..], rest, stats);
      KeySumRemove(t, i, stats);
    }
  }

  /** Taking the key at position i out of the list takes its count out of the total. */
  lemma KeySumRemove(t: seq<int>, i: nat, stats: map<int, nat>)
    requires i < |t|
    ensures KeySum(t, stats) == Count(stats, t[i]) + KeySum(t[..i] + t[i + 1..], stats)
  {
    var pre, mid, post := t[..i], [t[i]], t[i + 1..];
    SplitAt(t, i);
    KeySumAppend(pre + mid, post, stats);
    KeySumAppend(pre, mid, stats);
    KeySumAppend(pre, post, stats);
    assert KeySum(mid, stats) == Count(stats, t[i]) by {
      assert mid[1..] == [];
    }
  }

  /** Setting the count of a key not in the list leaves the total alone. */
  lemma {:induction false} KeySumOther(keys: seq<int>, stats: map<int, nat>, key: int, v: nat)
    requires key !in keys
    ensures KeySum(keys, stats[key := v]) == KeySum(keys, stats)
  {
    if |keys| > 0 {
      KeySumOther(keys[1..], stats, key, v);
    }
  }

  /** One more game for a listed key adds one to the total. */
  lemma {:induction false} KeySumIncrement(keys: seq<int>, stats: map<int, nat>, key: int)
    requires Distinct(keys) && key in keys
    ensures KeySum(keys, stats[key := Count(stats, key) + 1]) == KeySum(keys, stats) + 1
  {
    if keys[0] == key {
      assert key !in keys[1..];
      KeySumOther(keys[1..], stats, key, Count(stats, key) + 1);
    } else {
      KeySumIncrement(keys[1..], stats, key);
    }
  }

  /**
   * One game with value val tallied: the entry is created with count 0 on
   * first sight (its key appended to the object's key order), then counted.
   */
  method Tally(stats: map<int, nat>, keys: seq<int>, val: int) returns (stats': map<int, nat>, keys': seq<int>)
    requires Distinct(keys) && forall key :: key in stats <==> key in keys
    requires forall key :: key in stats ==> stats[key] > 0
    ensures Distinct(keys') && forall key :: key in stats' <==> key in keys'
    ensures forall key :: key in stats' ==> stats'[key] > 0
    ensures forall key :: Count(stats', key) == Count(stats, key) + (if key == val then 1 else 0)
    ensures forall key :: key in stats ==> key in stats'
    ensures val in stats'
    ensures KeySum(keys', stats') == KeySum(keys, stats) + 1
  {
    if val !in stats {
      KeySumOther(keys, stats, val, 1);
      KeySumAppend(keys, [val], stats[val := 1]);
      DistinctAppend(keys, [val]);
      stats' := stats[val := 1];
      keys' := keys + [val];
    } else {
      KeySumIncrement(keys, stats, val);
      stats' := stats[val := stats[val] + 1];
      keys' := keys;
    }
  }

  /**
   * The counting loop of genericStats: one tally per game, under the value f
   * gives it; the keys in the order they were first seen.
   */
  method TallyAll(results: seq<Row>, f: Row -> int) returns (stats: map<int, nat>, keys: seq<int>)
    ensures Distinct(keys) && forall key :: key in stats <==> key in keys
    ensures forall key :: Count(stats, key) == CountIf(results, HasKey(f, key))
    ensures forall key :: key in stats ==> stats[key] > 0
    ensures KeySum(keys, stats) == |results|
  {
    stats := map[];
    keys := [];
    var i := 0;
    while i < |results|
      invariant 0 <= i <= |results|
      invariant Distinct(keys) && forall key :: key in stats <==> key in keys
      invariant forall key :: Count(stats, key) == CountIf(results[..i], HasKey(f, key))
      invariant forall key :: key in stats ==> stats[key] > 0
      invariant KeySum(keys, stats) == i
    {
      forall key
        ensures CountIf(results[..i + 1], HasKey(f, key)) == CountIf(results[..i], HasKey(f, key)) + (if f(results[i]) == key then 1 else 0)
      {
        CountIfNext(results, i, HasKey(f, key));
      }
      stats, keys := Tally(stats, keys, f(results[i]));
      i := i + 1;
    }
    assert results[..i] == results;
  }

  /**
   * genericStats: the games tallied by the value f gives them, the tally
   * lines listed by ascending value.
   */
  method GenericStats(results: seq<Row>, f: Row -> int) returns (buckets: seq<Bucket>)
    ensures forall i, j :: 0 <= i < j < |buckets| ==> buckets[i].key < buckets[j].key
    ensures forall i :: 0 <= i < |buckets| ==> buckets[i].count == CountIf(results, HasKey(f, buckets[i].key))
    ensures forall i :: 0 <= i < |buckets| ==> buckets[i].count > 0
    ensures forall r :: r in results ==> exists i :: 0 <= i < |buckets| && buckets[i].key == f(r)
    ensures Total(buckets) == |results|
  {
    var stats, keys := TallyAll(results, f);
    forall r | r in results
      ensures f(r) in stats
    {
      CountedPositive(results, HasKey(f, f(r)), r);
    }
    buckets := BucketsOf(SortAscending(keys), stats);
    ListedAscending(stats, keys);
    ListedKeys(stats, keys);
    ListedTotal(stats, keys);
  }

  /** Listed by ascending key, the tally lines of repeat-free keys have strictly ascending keys. */
  lemma ListedAscending(stats: map<int, nat>, keys: seq<int>)
    requires Distinct(keys)
    ensures var buckets := BucketsOf(SortAscending(keys), stats);
      forall i, j :: 0 <= i < j < |buckets| ==> buckets[i].key < buckets[j].key
  {
    SortDistinct(keys);
  }

  /** Every key of the map is listed, with its count. */
  lemma ListedKeys(stats: map<int, nat>, keys: seq<int>)
    requires forall key :: key in stats <==> key in keys
    ensures var buckets := BucketsOf(SortAscending(keys), stats);
      (forall i :: 0 <= i < |buckets| ==> buckets[i].key in stats && buckets[i].count == stats[buckets[i].key]) &&
      (forall key :: key in stats ==> exists i :: 0 <= i < |buckets| && buckets[i].key == key)
  {
    var sorted := SortAscending(keys);
    forall i | 0 <= i < |sorted|
      ensures sorted[i] in stats
    {
      assert sorted[i] in multiset(keys);
    }
    forall key | key in stats
      ensures exists i :: 0 <= i < |sorted| && sorted[i] == key
    {
      assert key in multiset(sorted);
    }
  }

  /** The listed counts add up to the total the map accounts for. */
  lemma ListedTotal(stats: map<int, nat>, keys: seq<int>)
    ensures Total(BucketsOf(SortAscending(keys), stats)) == KeySum(keys, stats)
  {
    KeySumPermutation(keys, SortAscending(keys), stats);
    TotalOfBuckets(SortAscending(keys), stats);
  }

  /** The value sumStats files a game under: its sum rounded down to a multiple of 20. */
  function SumInterval(r: Row): (key: int)
    ensures key % 20 == 0 && key <= Sum(Map(r.numbers, ParseInt)) < key + 20
  {
    (Sum(Map(r.numbers, ParseInt)) / 20) * 20
  }

  /** The value evenOddStats files a game under: the number of its even balls. */
  function EvenCount(r: Row): (e: nat)
    ensures e <= |r.numbers|
  {
    AnalyzeNumbers(r.numbers, []).even
  }

  /** The prime list of primeStats, the primes up to 80. */
  const PrimeNumbersList: seq<int> := [2, 3, 5, 7, 11, 13, 17, 19, 23, 29, 31, 37, 41, 43, 47, 53, 59, 61, 67, 71, 73, 79]

  /** The value primeStats files a game under: the number of its balls in the prime list. */
  function PrimeCount(r: Row): (p: nat)
    ensures p <= |r.numbers|
  {
    AnalyzeNumbers(r.numbers, PrimeNumbersList).primes
  }

  /**
   * sumStats: the games tallied by 20-wide sum interval; every bucket starts at
   * a multiple of 20 and counts the games of that interval.
   */
  method SumStats(results: seq<Row>) returns (buckets: seq<Bucket>)
    ensures forall i, j :: 0 <= i < j < |buckets| ==> buckets[i].key < buckets[j].key
    ensures forall i :: 0 <= i < |buckets| ==> buckets[i].key % 20 == 0 && buckets[i].count > 0
    ensures forall i :: 0 <= i < |buckets| ==> buckets[i].count == CountIf(results, HasKey(SumInterval, buckets[i].key))
    ensures forall r :: r in results ==>
      exists i :: 0 <= i < |buckets| && buckets[i].key <= Sum(Map(r.numbers, ParseInt)) < buckets[i].key + 20
    ensures Total(buckets) == |results|
  {
    buckets := GenericStats(results, SumInterval);
    forall i | 0 <= i < |buckets|
      ensures buckets[i].key % 20 == 0
    {
      assert CountIf(results, HasKey(SumInterval, buckets[i].key)) > 0;
      var r := CountedWitness(results, HasKey(SumInterval, buckets[i].key));
      assert SumInterval(r) == buckets[i].key;
    }
  }

  /** An element satisfying p makes the count positive. */
  lemma {:induction false} CountedPositive<T>(s: seq<T>, p: T -> bool, x: T)
    requires x in s && p(x)
    ensures CountIf(s, p) > 0
  {
    if s[0] != x {
      CountedPositive(s[1..], p, x);
    }
  }

  /** A positive count has a witness. */
  lemma {:induction false} CountedWitness(s: seq<Row>, p: Row -> bool) returns (x: Row)
    requires CountIf(s, p) > 0
    ensures x in s && p(x)
  {
    if p(s[0]) {
      x := s[0];
    } else {
      x := CountedWitness(s[1..], p);
    }
  }
}
