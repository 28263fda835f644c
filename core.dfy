/**
 * The core module: the Pascal table, the visited bitmap with one bit per
 * combination, the game index, and the mapping of CSV rows to result rows.
 */
module Core {
  import opened Combinatorics
  import opened Seqs
  import opened Text
  import opened GameStats
  import opened Wrappers

  // ---------------------------------------------------------------------------
  // Bits of a byte

  /** 1 << b. */
  function Bit(b: nat): bv8
    requires b < 8
  {
    (1 as bv8) << b
  }

  predicate BitSet(x: bv8, b: nat)
    requires b < 8
  {
    x & Bit(b) != 0
  }

  /** Or-ing in bit b sets bit b and leaves the other seven as they were. */
  lemma OrBit(x: bv8, b: nat, c: nat)
    requires b < 8 && c < 8
    ensures BitSet(x | Bit(b), c) <==> BitSet(x, c) || b == c
  {
  }

  lemma ZeroByte(c: nat)
    requires c < 8
    ensures !BitSet(0, c)
  {
  }

  /** Bit idx of the bytes (byte idx / 8, bit idx % 8) is set exactly for the indices in marked. */
  ghost predicate Holds(bytes: seq<bv8>, marked: set<int>)
  {
    forall idx :: 0 <= idx < 8 * |bytes| ==> (BitSet(bytes[idx / 8], idx % 8) <==> idx in marked)
  }

  /** Or-ing the bit of idx into its byte adds idx to the indices the bytes hold. */
  lemma HoldsMark(bytes: seq<bv8>, marked: set<int>, idx: nat)
    requires Holds(bytes, marked) && idx < 8 * |bytes|
    ensures Holds(bytes[idx / 8 := bytes[idx / 8] | Bit(idx % 8)], marked + {idx})
  {
    var after := bytes[idx / 8 := bytes[idx / 8] | Bit(idx % 8)];
    forall j | 0 <= j < 8 * |after|
      ensures BitSet(after[j / 8], j % 8) <==> j in marked + {idx}
    {
      if j / 8 == idx / 8 {
        OrBit(bytes[idx / 8], idx % 8, j % 8);
      }
    }
  }

  /** Zero bytes hold no index. */
  lemma HoldsNone(bytes: seq<bv8>)
    requires forall b :: 0 <= b < |bytes| ==> bytes[b] == 0
    ensures Holds(bytes, {})
  {
    forall idx | 0 <= idx < 8 * |bytes|
      ensures !BitSet(bytes[idx / 8], idx % 8)
    {
      ZeroByte(idx % 8);
    }
  }

  /** Math.ceil(total / 8): the bytes of a bitmap with one bit per combination. */
  function ByteSize(total: nat): nat
  {
    (total + 7) / 8
  }

  /** ByteSize is the least number of bytes with room for total bits. */
  lemma ByteSizeIsCeiling(total: nat)
    ensures 8 * ByteSize(total) >= total
    ensures ByteSize(total) == 0 || 8 * (ByteSize(total) - 1) < total
  {
  }

  /** For the Quina, the bitmap of C(80, 5) = 24,040,016 bits has 3,005,002 bytes. */
  lemma QuinaBitmapBytes(total: nat)
    requires total == Binom(80, 5)
    ensures ByteSize(total) == 3005002
  {
    QuinaCombinations();
    QuinaBytes(total);
  }

  lemma QuinaBytes(total: nat)
    requires total == 24040016
    ensures ByteSize(total) == 3005002
  {
  }

  // ---------------------------------------------------------------------------
  // The bitset system

  class BitSetSystem {
    /** Total numbers and pick size of the lottery. */
    const n: nat
    const k: nat
    var combTable: array2?<int>
    var visitedBitmap: array?<bv8>
    /** The indices whose bit is set. */
    ghost var Marked: set<int>
    ghost var Repr: set<object>

    ghost predicate TableReady()
      reads this, combTable
    {
      combTable != null && combTable.Length0 == n + 1 && combTable.Length1 == k + 1 &&
      forall i, j :: 0 <= i <= n && 0 <= j <= k ==> combTable[i, j] == Binom(i, j)
    }

    /** The bitmap holds exactly the marked indices, all of them indices of games. */
    ghost predicate BitsMatch()
      reads this, visitedBitmap
      requires visitedBitmap != null
    {
      Holds(visitedBitmap[..], Marked) && forall idx :: idx in Marked ==> 0 <= idx < Binom(n, k)
    }

    ghost predicate Valid()
      reads this, Repr
    {
      this in Repr && 1 <= k <= n &&
      (combTable != null ==> combTable in Repr && TableReady()) &&
      (visitedBitmap != null ==>
        visitedBitmap in Repr && combTable != null &&
        visitedBitmap.Length == ByteSize(Binom(n, k)) && BitsMatch()) &&
      (visitedBitmap == null ==> Marked == {})
    }

    /** The component's initial data: no table and no bitmap yet. */
    constructor (n: nat, k: nat)
      requires 1 <= k <= n
      ensures Valid() && fresh(Repr)
      ensures this.n == n && this.k == k
      ensures combTable == null && visitedBitmap == null && Marked == {}
    {
      this.n, this.k := n, k;
      combTable, visitedBitmap := null, null;
      Marked := {};
      Repr := {this};
    }

    /**
     * initBitSetSystem: a fresh Pascal table C(i, j) for i <= n, j <= k; the
     * bitmap is allocated with ceil(C(n, k) / 8) zero bytes on first use and
     * zero-filled in place afterwards.
     */
    method InitBitSetSystem()
      requires Valid()
      modifies this, visitedBitmap
      ensures Valid() && fresh(combTable) && fresh(Repr - old(Repr))
      ensures forall i, j :: 0 <= i <= n && 0 <= j <= k ==> combTable[i, j] == Binom(i, j)
      ensures visitedBitmap != null && visitedBitmap.Length == ByteSize(Binom(n, k))
      ensures old(visitedBitmap) != null ==> visitedBitmap == old(visitedBitmap)
      ensures old(visitedBitmap) == null ==> fresh(visitedBitmap)
      ensures forall b :: 0 <= b < visitedBitmap.Length ==> visitedBitmap[b] == 0
      ensures Marked == {}
    {
      combTable := PascalTable(n, k);
      if visitedBitmap == null {
        var totalCombs := combTable[n, k];
        visitedBitmap := new bv8[ByteSize(totalCombs)](_ => 0);
      } else {
        forall b | 0 <= b < visitedBitmap.Length {
          visitedBitmap[b] := 0;
        }
      }
      Marked := {};
      Repr := Repr + {combTable, visitedBitmap};
      HoldsNone(visitedBitmap[..]);
    }

    /** getGameIndex: the combinatorial rank of an ascending game, read off the table. */
    method GetGameIndex(nums: seq<int>) returns (idx: int)
      requires Valid() && combTable != null && IsGame(nums, n, k)
      ensures idx == Rank(nums) && 0 <= idx < Binom(n, k)
    {
      idx := 0;
      for i := 0 to k
        invariant idx == Rank(nums[..i])
      {
        assert nums[..i + 1][..i] == nums[..i];
        idx := idx + combTable[nums[i] - 1, i + 1];
      }
      assert nums[..k] == nums;
      RankInRange(nums, n, k);
    }

    /** The test half of the test-and-set: is the bit of idx set? */
    method IsVisited(idx: int) returns (visited: bool)
      requires Valid() && visitedBitmap != null && 0 <= idx < Binom(n, k)
      ensures visited <==> idx in Marked
    {
      visited := visitedBitmap[idx / 8] & Bit(idx % 8) != 0;
    }

    /** The set half: or the bit of idx into its byte. */
    method MarkVisited(idx: int)
      requires Valid() && visitedBitmap != null && 0 <= idx < Binom(n, k)
      modifies visitedBitmap, this`Marked
      ensures Valid() && Marked == old(Marked) + {idx}
      ensures forall b :: 0 <= b < visitedBitmap.Length && b != idx / 8 ==>
        visitedBitmap[b] == old(visitedBitmap[b])
    {
      var byteIdx, bitIdx := idx / 8, idx % 8;
      ByteSizeIsCeiling(Binom(n, k));
      HoldsMark(visitedBitmap[..], Marked, idx);
      visitedBitmap[byteIdx] := visitedBitmap[byteIdx] | Bit(bitIdx);
      Marked := Marked + {idx};
    }
  }

  /** The table part of initBitSetSystem: row i of Pascal's triangle, cut at column k, for i <= n. */
  method PascalTable(n: nat, k: nat) returns (table: array2<int>)
    ensures fresh(table) && table.Length0 == n + 1 && table.Length1 == k + 1
    ensures forall i, j :: 0 <= i <= n && 0 <= j <= k ==> table[i, j] == Binom(i, j)
  {
    table := new int[n + 1, k + 1]((_, _) => 0);
    var i := 0;
    while i <= n
      invariant 0 <= i <= n + 1
      invariant forall r, c :: 0 <= r < i && 0 <= c <= k ==> table[r, c] == Binom(r, c)
    {
      PascalRow(table, i);
      i := i + 1;
    }
  }

  /** Row i of the table from row i - 1: C(i, j) = C(i - 1, j - 1) + C(i - 1, j), zero past the diagonal. */
  method PascalRow(table: array2<int>, i: nat)
    requires i < table.Length0 && table.Length1 >= 1
    requires forall r, c :: 0 <= r < i && 0 <= c < table.Length1 ==> table[r, c] == Binom(r, c)
    modifies table
    ensures forall r, c :: 0 <= r <= i && 0 <= c < table.Length1 ==> table[r, c] == Binom(r, c)
    ensures forall r, c :: 0 <= r < table.Length0 && r != i && 0 <= c < table.Length1 ==>
      table[r, c] == old(table[r, c])
  {
    table[i, 0] := 1;
    var j := 1;
    while j < table.Length1
      invariant 1 <= j <= table.Length1
      invariant forall c :: 0 <= c < j ==> table[i, c] == Binom(i, c)
      invariant forall r, c :: 0 <= r < table.Length0 && r != i && 0 <= c < table.Length1 ==>
        table[r, c] == old(table[r, c])
    {
      var next := 0;
      if j <= i {
        next := table[i - 1, j - 1] + table[i - 1, j];
      } else {
        BinomAboveIsZero(i, j);
      }
      table[i, j] := next;
      j := j + 1;
    }
  }

  // ---------------------------------------------------------------------------
  // Result rows read from the CSV file

  datatype RowStats = RowStats(sum: int, even: nat, primes: nat, d: nat, m: nat, y: nat, time: int, isLeap: bool)

  datatype Row = Row(game: string, date: string, numbers: seq<string>, stats: RowStats)

  /** The Gregorian leap-year rule. */
  predicate IsLeap(y: int)
  {
    (y % 4 == 0 && y % 100 != 0) || y % 400 == 0
  }

  /** The rule repeats every 400 years and has the usual century exceptions. */
  lemma LeapYearCycle(y: int)
    ensures IsLeap(y + 400) == IsLeap(y)
    ensures IsLeap(2000) && !IsLeap(1900) && IsLeap(2024) && !IsLeap(2023)
  {
  }

  /**
   * The midnight timestamp of a date, as a day key: later dates of the
   * calendar get larger keys.
   */
  function DayKey(y: nat, m: nat, d: nat): int
  {
    y * 372 + m * 31 + d
  }

  lemma DayKeyOrder(y1: nat, m1: nat, d1: nat, y2: nat, m2: nat, d2: nat)
    requires 1 <= m1 <= 12 && 1 <= d1 <= 31 && 1 <= m2 <= 12 && 1 <= d2 <= 31
    ensures DayKey(y1, m1, d1) < DayKey(y2, m2, d2) <==>
      y1 < y2 || (y1 == y2 && (m1 < m2 || (m1 == m2 && d1 < d2)))
  {
  }

  /** The pieces joined back with sep between them (Array.prototype.join). */
  function Join(parts: seq<string>, sep: char): string
  {
    if |parts| == 0 then ""
    else if |parts| == 1 then parts[0]
    else parts[0] + [sep] + Join(parts[1..], sep)
  }

  /**
   * The pieces of s between the separator sep (String.prototype.split):
   * none of them holds sep, and joining them with sep gives s back.
   */
  function Split(s: string, sep: char): (parts: seq<string>)
    ensures |parts| >= 1
    ensures forall i :: 0 <= i < |parts| ==> sep !in parts[i]
    ensures Join(parts, sep) == s
    decreases |s|
  {
    if |s| == 0 then [""]
    else
      var rest := Split(s[1..], sep);
      assert s == [s[0]] + s[1..];
      if s[0] == sep then [""] + rest
      else
        var parts := [[s[0]] + rest[0]] + rest[1..];
        assert parts[1..] == rest[1..];
        parts
  }

  function FieldOr(parts: seq<string>, i: nat): string
  {
    if i < |parts| then parts[i] else ""
  }

  /**
   * The numbers of a row: fields 2 .. 2 + k - 1 read with parseInt, written
   * with two digits and sorted by value. Sorting the values and then padding
   * gives the same strings as padding and then sorting numerically, since
   * padding is injective and keeps the order of values.
   */
  function RowNumbers(row: seq<string>, k: nat): (numbers: seq<string>)
    ensures |numbers| == |Slice(row, 2, 2 + k)|
    ensures forall i :: 0 <= i < |numbers| ==> AllDigits(numbers[i]) && |numbers[i]| >= 2
    ensures Map(numbers, ParseInt) == SortAscending(Map(Slice(row, 2, 2 + k), ParseInt))
  {
    var values := Map(Slice(row, 2, 2 + k), ParseInt);
    var sorted := SortAscending(values);
    assert forall i :: 0 <= i < |sorted| ==> sorted[i] in multiset(values);
    PadAllParses(sorted);
    PadAll(sorted)
  }

  /** Every value written with at least two digits. */
  function PadAll(vs: seq<int>): (ss: seq<string>)
    requires forall i :: 0 <= i < |vs| ==> vs[i] >= 0
    ensures |ss| == |vs|
  {
    if |vs| == 0 then [] else [Pad2(vs[0])] + PadAll(vs[1..])
  }

  /** The i-th string is the i-th value written with two digits. */
  lemma {:induction false} PadAllAt(vs: seq<int>, i: nat)
    requires forall j :: 0 <= j < |vs| ==> vs[j] >= 0
    requires i < |vs|
    ensures PadAll(vs)[i] == Pad2(vs[i])
  {
    if i > 0 {
      PadAllAt(vs[1..], i - 1);
    }
  }

  /** The padded strings are digit strings of length at least two that parseInt reads back as the values. */
  lemma PadAllParses(vs: seq<int>)
    requires forall i :: 0 <= i < |vs| ==> vs[i] >= 0
    ensures forall i :: 0 <= i < |vs| ==> AllDigits(PadAll(vs)[i]) && |PadAll(vs)[i]| >= 2
    ensures Map(PadAll(vs), ParseInt) == vs
  {
    forall i | 0 <= i < |vs|
      ensures PadAll(vs)[i] == Pad2(vs[i]) && AllDigits(Pad2(vs[i])) && Value(Pad2(vs[i])) == vs[i]
    {
      PadAllAt(vs, i);
      Pad2Value(vs[i]);
    }
  }

  /** The day, month and year fields of a date written "d/m/y". */
  function DateParts(date: string): (dmy: (nat, nat, nat))
  {
    var parts := Split(date, '/');
    (ParseInt(FieldOr(parts, 0)), ParseInt(FieldOr(parts, 1)), ParseInt(FieldOr(parts, 2)))
  }

  /** The stats of a row: the game statistics of its numbers and its date fields. */
  function RowStatsOf(row: seq<string>, k: nat, primeList: seq<int>): (st: RowStats)
    requires |row| >= 3
    ensures Stats(st.sum, st.even, st.primes) == AnalyzeGame(Map(Slice(row, 2, 2 + k), ParseInt), primeList)
    ensures (st.d, st.m, st.y) == DateParts(row[1])
    ensures st.time == DayKey(st.y, st.m, st.d) && st.isLeap == IsLeap(st.y)
  {
    var nums := RowNumbers(row, k);
    var values := Map(Slice(row, 2, 2 + k), ParseInt);
    var g := AnalyzeNumbers(nums, primeList);
    NumbersStats(row, k, primeList);
    var (d, m, y) := DateParts(row[1]);
    RowStats(g.sum, g.even, g.primes, d, m, y, DayKey(y, m, d), IsLeap(y))
  }

  lemma NumbersStats(row: seq<string>, k: nat, primeList: seq<int>)
    ensures AnalyzeNumbers(RowNumbers(row, k), primeList) == AnalyzeGame(Map(Slice(row, 2, 2 + k), ParseInt), primeList)
  {
    var values := Map(Slice(row, 2, 2 + k), ParseInt);
    AnalyzeGamePermutation(Map(RowNumbers(row, k), ParseInt), values, primeList);
  }

  /** The mapping of one CSV row: rows with fewer than three fields are dropped. */
  function MapRow(row: seq<string>, k: nat, primeList: seq<int>): (r: Option<Row>)
    ensures r.Some? <==> |row| >= 3
    ensures r.Some? ==> r.value == Row(row[0], row[1], RowNumbers(row, k), RowStatsOf(row, k, primeList))
  {
    if |row| < 3 then None
    else Some(Row(row[0], row[1], RowNumbers(row, k), RowStatsOf(row, k, primeList)))
  }

  /** A CSV row that mapRow keeps: one with at least three fields. */
  predicate IsDataRow(row: seq<string>)
  {
    |row| >= 3
  }

  /**
   * res.data.slice(1).map(mapRow).filter(Boolean): the header line is
   * skipped, and each later row of at least three fields gives its mapped
   * row, in file order.
   */
  function MapRows(data: seq<seq<string>>, k: nat, primeList: seq<int>): (rows: seq<Row>)
    ensures |data| == 0 ==> rows == []
    ensures |data| > 0 ==> |rows| == |Filter(data[1..], IsDataRow)|
    ensures |data| > 0 ==> forall i :: 0 <= i < |rows| ==> MapRow(Filter(data[1..], IsDataRow)[i], k, primeList) == Some(rows[i])
    ensures |rows| == (if |data| == 0 then 0 else CountIf(data[1..], (r: seq<string>) => |r| >= 3))
  {
    if |data| == 0 then []
    else
      KeepRowsMapped(data[1..], k, primeList);
      KeepRows(data[1..], k, primeList)
  }

  /** The rows mapRow keeps, mapped, in order: the values of the Some results. */
  function KeepRows(data: seq<seq<string>>, k: nat, primeList: seq<int>): (rows: seq<Row>)
    ensures |rows| == |Filter(data, IsDataRow)|
    ensures |rows| == CountIf(data, (r: seq<string>) => |r| >= 3)
  {
    if |data| == 0 then []
    else
      FilterHead(data, IsDataRow);
      match MapRow(data[0], k, primeList)
      case None => KeepRows(data[1..], k, primeList)
      case Some(r) => [r] + KeepRows(data[1..], k, primeList)
  }

  /** One more kept row in front, and its mapped row in front of the result. */
  lemma MappedCons<A, B>(f: A -> Option<B>, first: A, kept: seq<A>, r: B, rest: seq<B>)
    requires f(first) == Some(r) && |rest| == |kept|
    requires forall i :: 0 <= i < |rest| ==> f(kept[i]) == Some(rest[i])
    ensures forall i :: 0 <= i < |rest| + 1 ==> f(([first] + kept)[i]) == Some(([r] + rest)[i])
  {
    forall i | 1 <= i < |rest| + 1
      ensures f(([first] + kept)[i]) == Some(([r] + rest)[i])
    {
      assert ([first] + kept)[i] == kept[i - 1] && ([r] + rest)[i] == rest[i - 1];
    }
  }

  /** Row i of the result is what mapRow makes of the i-th row it keeps. */
  lemma {:induction false} KeepRowsMapped(data: seq<seq<string>>, k: nat, primeList: seq<int>)
    ensures var rows := KeepRows(data, k, primeList);
      forall i :: 0 <= i < |rows| ==> MapRow(Filter(data, IsDataRow)[i], k, primeList) == Some(rows[i])
  {
    if |data| > 0 {
      var rows := KeepRows(data, k, primeList);
      var kept := Filter(data[1..], IsDataRow);
      var rest := KeepRows(data[1..], k, primeList);
      KeepRowsMapped(data[1..], k, primeList);
      FilterHead(data, IsDataRow);
      match MapRow(data[0], k, primeList)
      case None =>
        assert rows == rest && Filter(data, IsDataRow) == kept;
      case Some(r) =>
        assert rows == [r] + rest && Filter(data, IsDataRow) == [data[0]] + kept;
        var f := (row: seq<string>) => MapRow(row, k, primeList);
        MappedCons(f, data[0], kept, r, rest);
    }
  }
}
