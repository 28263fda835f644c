/**
 * Sequence helpers shared by the statistics, the filters and the generators:
 * sums and counts, duplicate removal in first-occurrence order (a JavaScript
 * Set), and a stable sort by an integer key (Array.prototype.sort with a
 * numeric comparator).
 */
module Seqs {

  function Sum(s: seq<int>): int
  {
    if |s| == 0 then 0 else s[0] + Sum(s[1..])
  }

  /** Number of elements satisfying p (a filter(...).length). */
  function CountIf<T>(s: seq<T>, p: T -> bool): (c: nat)
    ensures c <= |s|
  {
    if |s| == 0 then 0 else (if p(s[0]) then 1 else 0) + CountIf(s[1..], p)
  }

  function Min(a: int, b: int): int
  {
    if a < b then a else b
  }

  /** Math.ceil(a / b), in integers: the least q with q * b >= a. */
  function CeilDiv(a: nat, b: nat): (q: nat)
    requires b >= 1
    ensures b * q >= a
    ensures q == 0 || b * (q - 1) < a
  {
    (a + b - 1) / b
  }

  /** s.slice(lo, hi), with JavaScript's clamping of both ends to the length. */
  function Slice<T>(s: seq<T>, lo: nat, hi: nat): (r: seq<T>)
    ensures |r| == if lo >= |s| || hi <= lo then 0 else Min(hi, |s|) - lo
    ensures lo < |s| && lo < hi ==> r == s[lo..Min(hi, |s|)]
  {
    var a := if lo < |s| then lo else |s|;
    var b := if hi < |s| then hi else |s|;
    if a < b then s[a..b] else []
  }

  /** s.map(f). */
  function Map<A, B>(s: seq<A>, f: A -> B): (r: seq<B>)
    ensures |r| == |s| && forall i :: 0 <= i < |s| ==> r[i] == f(s[i])
  {
    seq(|s|, i requires 0 <= i < |s| => f(s[i]))
  }

  /** s.filter(p): the elements satisfying p, in their order. */
  function Filter<T(!new)>(s: seq<T>, p: T -> bool): (r: seq<T>)
    ensures |r| <= |s|
    ensures forall i :: 0 <= i < |r| ==> p(r[i])
    ensures forall x :: x in r <==> x in s && p(x)
  {
    if |s| == 0 then []
    else
      assert s == [s[0]] + s[1..];
      (if p(s[0]) then [s[0]] else []) + Filter(s[1..], p)
  }

  predicate Distinct<T(==)>(s: seq<T>)
  {
    forall i, j :: 0 <= i < j < |s| ==> s[i] != s[j]
  }

  /** Two repeat-free sequences with no common element concatenate to a repeat-free one. */
  lemma DistinctAppend<T>(a: seq<T>, b: seq<T>)
    requires Distinct(a) && Distinct(b)
    requires forall x :: x in a ==> x !in b
    ensures Distinct(a + b)
  {
    forall i, j | 0 <= i < j < |a + b|
      ensures (a + b)[i] != (a + b)[j]
    {
      if i < |a| && j >= |a| {
        assert (a + b)[i] in a && (a + b)[j] == b[j - |a|];
      }
    }
  }

  lemma {:induction false} SumAppend(a: seq<int>, b: seq<int>)
    ensures Sum(a + b) == Sum(a) + Sum(b)
  {
    if |a| > 0 {
      assert (a + b)[1..] == a[1..] + b;
      SumAppend(a[1..], b);
    } else {
      assert a + b == b;
    }
  }

  lemma {:induction false} CountIfAppend<T>(a: seq<T>, b: seq<T>, p: T -> bool)
    ensures CountIf(a + b, p) == CountIf(a, p) + CountIf(b, p)
  {
    if |a| > 0 {
      assert (a + b)[1..] == a[1..] + b;
      CountIfAppend(a[1..], b, p);
    } else {
      assert a + b == b;
    }
  }

  /** Counting a predicate every element satisfies, or none does. */
  lemma {:induction false} CountIfUniform<T>(s: seq<T>, p: T -> bool)
    ensures (forall x :: x in s ==> p(x)) ==> CountIf(s, p) == |s|
    ensures (forall x :: x in s ==> !p(x)) ==> CountIf(s, p) == 0
  {
    if |s| > 0 {
      CountIfUniform(s[1..], p);
      assert forall x :: x in s[1..] ==> x in s;
    }
  }

  /** Counting one more element of a prefix. */
  lemma CountIfNext<T>(s: seq<T>, i: nat, p: T -> bool)
    requires i < |s|
    ensures CountIf(s[..i + 1], p) == CountIf(s[..i], p) + (if p(s[i]) then 1 else 0)
  {
    assert s[..i + 1] == s[..i] + [s[i]];
    CountIfAppend(s[..i], [s[i]], p);
  }

  /** Removing the element at position i splits a sequence around it. */
  lemma SplitAt<T>(t: seq<T>, i: nat)
    requires i < |t|
    ensures t == t[..i] + [t[i]] + t[i + 1..]
  {
  }

  /** Removing the element at position i takes it out of the multiset. */
  lemma RemoveAt<T>(t: seq<T>, i: nat)
    requires i < |t|
    ensures multiset(t[..i] + t[i + 1..]) == multiset(t) - multiset{t[i]}
  {
    SplitAt(t, i);
    assert multiset(t) == multiset(t[..i]) + multiset{t[i]} + multiset(t[i + 1..]);
  }

  /** Sums do not depend on the order of the elements. */
  lemma {:induction false} SumPermutation(s: seq<int>, t: seq<int>)
    requires multiset(s) == multiset(t)
    ensures Sum(s) == Sum(t)
  {
    if |s| > 0 {
      assert s[0] in multiset(t);
      var i :| 0 <= i < |t| && t[i] == s[0];
      var rest := t[..i] + t[i + 1..];
      RemoveAt(t, i);
      assert s == [s[0]] + s[1..];
      assert multiset(s[1..]) == multiset(s) - multiset{s[0]};
      SumPermutation(s[1..], rest);
      SplitAt(t, i);
      SumAppend(t[..i] + [t[i]], t[i + 1..]);
      SumAppend(t[..i], [t[i]]);
      SumAppend(t[..i], t[i + 1..]);
    }
  }

  /** Counts do not depend on the order of the elements. */
  lemma {:induction false} CountIfPermutation<T>(s: seq<T>, t: seq<T>, p: T -> bool)
    requires multiset(s) == multiset(t)
    ensures CountIf(s, p) == CountIf(t, p)
  {
    if |s| > 0 {
      assert s[0] in multiset(t);
      var i :| 0 <= i < |t| && t[i] == s[0];
      var rest := t[..i] + t[i + 1..];
      RemoveAt(t, i);
      assert s == [s[0]] + s[1..];
      assert multiset(s[1..]) == multiset(s) - multiset{s[0]};
      CountIfPermutation(s[1..], rest, p);
      SplitAt(t, i);
      CountIfAppend(t[..i] + [t[i]], t[i + 1..], p);
      CountIfAppend(t[..i], [t[i]], p);
      CountIfAppend(t[..i], t[i + 1..], p);
    }
  }

  /** [...new Set(s)]: the elements of s, each once, in first-occurrence order. */
  function Dedup<T(==,!new)>(s: seq<T>): (r: seq<T>)
    ensures Distinct(r) && |r| <= |s|
    ensures forall x :: x in r <==> x in s
    ensures Distinct(s) ==> r == s
  {
    if |s| == 0 then []
    else
      var p := Dedup(s[..|s| - 1]);
      assert forall x :: x in s <==> x in s[..|s| - 1] || x == s[|s| - 1];
      if s[|s| - 1] in p then p else p + [s[|s| - 1]]
  }

  predicate SortedBy<T>(s: seq<T>, key: T -> int)
  {
    forall i, j :: 0 <= i < j < |s| ==> key(s[i]) <= key(s[j])
  }

  /** Insert x before the first element whose key is at least key(x), so that ties keep x first. */
  function InsertBy<T>(x: T, s: seq<T>, key: T -> int): (r: seq<T>)
    requires SortedBy(s, key)
    ensures multiset(r) == multiset(s) + multiset{x}
    ensures SortedBy(r, key)
  {
    if |s| == 0 then [x]
    else if key(x) <= key(s[0]) then [x] + s
    else
      var rest := InsertBy(x, s[1..], key);
      assert s == [s[0]] + s[1..];
      SortedCons(s[0], x, s[1..], rest, key);
      [s[0]] + rest
  }

  lemma SortedCons<T>(head: T, x: T, tail: seq<T>, rest: seq<T>, key: T -> int)
    requires SortedBy([head] + tail, key) && SortedBy(rest, key) && key(head) < key(x)
    requires multiset(rest) == multiset(tail) + multiset{x}
    ensures SortedBy([head] + rest, key)
  {
    forall i | 0 <= i < |rest| ensures key(head) <= key(rest[i]) {
      assert rest[i] in multiset(rest);
      if rest[i] != x {
        assert rest[i] in multiset(tail);
        var j :| 0 <= j < |tail| && tail[j] == rest[i];
        assert ([head] + tail)[0] == head && ([head] + tail)[j + 1] == tail[j];
      }
    }
    var t := [head] + rest;
    forall i, j | 0 <= i < j < |t| ensures key(t[i]) <= key(t[j]) {
      if i > 0 { assert t[i] == rest[i - 1] && t[j] == rest[j - 1]; } else { assert t[j] == rest[j - 1]; }
    }
  }

  /** A stable sort by ascending key: a permutation of s in key order. */
  function SortBy<T>(s: seq<T>, key: T -> int): (r: seq<T>)
    ensures multiset(r) == multiset(s) && |r| == |s|
    ensures SortedBy(r, key)
  {
    if |s| == 0 then []
    else
      assert s == [s[0]] + s[1..];
      InsertBy(s[0], SortBy(s[1..], key), key)
  }

  /** Sorting depends on the key only through its values. */
  lemma {:induction false} SortByCongruent<T>(s: seq<T>, key1: T -> int, key2: T -> int)
    requires forall x :: key1(x) == key2(x)
    ensures SortBy(s, key1) == SortBy(s, key2)
  {
    if |s| > 0 {
      SortByCongruent(s[1..], key1, key2);
      InsertByCongruent(s[0], SortBy(s[1..], key1), key1, key2);
    }
  }

  lemma {:induction false} InsertByCongruent<T>(x: T, s: seq<T>, key1: T -> int, key2: T -> int)
    requires forall y :: key1(y) == key2(y)
    requires SortedBy(s, key1)
    ensures SortedBy(s, key2) && InsertBy(x, s, key1) == InsertBy(x, s, key2)
  {
    if |s| > 0 {
      InsertByCongruent(x, s[1..], key1, key2);
    }
  }

  /** The elements of s for which key is v. */
  function KeyIs<T>(key: T -> int, v: int): T -> bool
  {
    x => key(x) == v
  }

  /** Filtering distributes over concatenation. */
  lemma {:induction false} FilterAppend<T(!new)>(a: seq<T>, b: seq<T>, p: T -> bool)
    ensures Filter(a + b, p) == Filter(a, p) + Filter(b, p)
  {
    if |a| == 0 {
      assert a + b == b;
    } else {
      var head := if p(a[0]) then [a[0]] else [];
      calc {
        Filter(a + b, p);
        { FilterHead(a + b, p); assert (a + b)[0] == a[0] && (a + b)[1..] == a[1..] + b; }
        head + Filter(a[1..] + b, p);
        { FilterAppend(a[1..], b, p); }
        head + (Filter(a[1..], p) + Filter(b, p));
        { AppendAssoc(head, Filter(a[1..], p), Filter(b, p)); }
        (head + Filter(a[1..], p)) + Filter(b, p);
        { FilterHead(a, p); }
        Filter(a, p) + Filter(b, p);
      }
    }
  }

  /** Concatenation is associative. */
  lemma AppendAssoc<T>(a: seq<T>, b: seq<T>, c: seq<T>)
    ensures a + (b + c) == (a + b) + c
  {
  }

  /** Filtering takes each element at most as often as it occurs. */
  lemma {:induction false} FilterMultiset<T(!new)>(s: seq<T>, p: T -> bool)
    ensures multiset(Filter(s, p)) <= multiset(s)
  {
    if |s| > 0 {
      FilterMultiset(s[1..], p);
      FilterHead(s, p);
      assert s == [s[0]] + s[1..];
    }
  }

  /** The first step of Filter. */
  lemma FilterHead<T(!new)>(s: seq<T>, p: T -> bool)
    requires |s| > 0
    ensures Filter(s, p) == (if p(s[0]) then [s[0]] else []) + Filter(s[1..], p)
  {
  }

  /** Filtering away every element leaves nothing. */
  lemma {:induction false} FilterNone<T(!new)>(s: seq<T>, p: T -> bool)
    requires forall i :: 0 <= i < |s| ==> !p(s[i])
    ensures Filter(s, p) == []
  {
    if |s| > 0 {
      FilterNone(s[1..], p);
    }
  }

  /**
   * InsertBy puts x at the first position m whose element has a key of at
   * least key(x): the elements before it have smaller keys.
   */
  lemma {:induction false} InsertByShape<T>(x: T, s: seq<T>, key: T -> int) returns (m: nat)
    requires SortedBy(s, key)
    ensures m <= |s| && InsertBy(x, s, key) == s[..m] + [x] + s[m..]
    ensures forall i :: 0 <= i < m ==> key(s[i]) < key(x)
  {
    if |s| == 0 || key(x) <= key(s[0]) {
      m := 0;
    } else {
      var m' := InsertByShape(x, s[1..], key);
      m := m' + 1;
      assert s[1..][..m'] == s[1..m] && s[1..][m'..] == s[m..];
      assert s[..m] == [s[0]] + s[1..m];
    }
  }

  /** Stability: sorting keeps, for every key value, the elements with that key in their order. */
  lemma {:induction false} SortByStable<T(!new)>(s: seq<T>, key: T -> int, v: int)
    ensures Filter(SortBy(s, key), KeyIs(key, v)) == Filter(s, KeyIs(key, v))
  {
    if |s| > 0 {
      var p := KeyIs(key, v);
      var t := SortBy(s[1..], key);
      SortByStable(s[1..], key, v);
      var m := InsertByShape(s[0], t, key);
      FilterSpliced(s[0], t, m, key, v);
      FilterHead(s, p);
    }
  }

  /** x spliced in at m, after elements of smaller key only, is kept by KeyIs(key, v) in front of t's. */
  lemma FilterSpliced<T(!new)>(x: T, t: seq<T>, m: nat, key: T -> int, v: int)
    requires m <= |t| && forall i :: 0 <= i < m ==> key(t[i]) < key(x)
    ensures Filter(t[..m] + [x] + t[m..], KeyIs(key, v)) == (if key(x) == v then [x] else []) + Filter(t, KeyIs(key, v))
  {
    var p := KeyIs(key, v);
    if p(x) {
      FilterNone(t[..m], p);
    }
    PrefixSuffix(t, m);
    FilterAround(t[..m], x, t[m..], p);
  }

  /** A sequence is its prefix and suffix at m. */
  lemma PrefixSuffix<T>(t: seq<T>, m: nat)
    requires m <= |t|
    ensures t[..m] + t[m..] == t
  {
  }

  /** Filtering pre + [x] + post when nothing of pre passes or x does not. */
  lemma {:induction false} FilterAround<T(!new)>(pre: seq<T>, x: T, post: seq<T>, p: T -> bool)
    requires Filter(pre, p) == [] || !p(x)
    ensures Filter(pre + [x] + post, p) == (if p(x) then [x] else []) + Filter(pre + post, p)
  {
    var head := if p(x) then [x] else [];
    assert Filter([x], p) == head by { FilterHead([x], p); }
    FilterAppend(pre, [x], p);
    FilterAppend(pre + [x], post, p);
    FilterAppend(pre, post, p);
    EmptyInFront(Filter(pre, p), head, Filter(post, p));
  }

  /** One of a and h being empty, a + h + b is h + (a + b). */
  lemma EmptyInFront<T>(a: seq<T>, h: seq<T>, b: seq<T>)
    requires a == [] || h == []
    ensures a + h + b == h + (a + b)
  {
    if a == [] {
      assert a + h == h;
    } else {
      assert a + h == a;
    }
  }

  /** Elements of s with equal keys come in increasing pos. */
  predicate TiesOrdered<T>(s: seq<T>, key: T -> int, pos: T -> int)
  {
    forall i, j :: 0 <= i < j < |s| && key(s[i]) == key(s[j]) ==> pos(s[i]) < pos(s[j])
  }

  /** Inserting x in front of every element with its key keeps ties in pos order. */
  lemma InsertByTies<T>(x: T, s: seq<T>, key: T -> int, pos: T -> int)
    requires SortedBy(s, key) && TiesOrdered(s, key, pos)
    requires forall i :: 0 <= i < |s| && key(s[i]) == key(x) ==> pos(x) < pos(s[i])
    ensures TiesOrdered(InsertBy(x, s, key), key, pos)
  {
    var m := InsertByShape(x, s, key);
    SplicedTies(x, s, m, key, pos);
  }

  /** The pairwise form of InsertByTies on the spliced sequence. */
  lemma SplicedTies<T>(x: T, s: seq<T>, m: nat, key: T -> int, pos: T -> int)
    requires m <= |s| && TiesOrdered(s, key, pos)
    requires forall i :: 0 <= i < m ==> key(s[i]) < key(x)
    requires forall i :: 0 <= i < |s| && key(s[i]) == key(x) ==> pos(x) < pos(s[i])
    ensures TiesOrdered(s[..m] + [x] + s[m..], key, pos)
  {
    var r := s[..m] + [x] + s[m..];
    forall i, j | 0 <= i < j < |r| && key(r[i]) == key(r[j]) ensures pos(r[i]) < pos(r[j]) {
      SplicedAt(s, x, m, i);
      SplicedAt(s, x, m, j);
      if j == m {
        assert false;
      }
    }
  }

  /** The elements of s[..m] + [x] + s[m..] by index. */
  lemma SplicedAt<T>(s: seq<T>, x: T, m: nat, i: nat)
    requires m <= |s| && i <= |s|
    ensures (s[..m] + [x] + s[m..])[i] == if i < m then s[i] else if i == m then x else s[i - 1]
  {
  }

  /** Stability, pairwise: ties ordered by pos in s stay ordered by pos once sorted. */
  lemma {:induction false} SortByTies<T>(s: seq<T>, key: T -> int, pos: T -> int)
    requires TiesOrdered(s, key, pos)
    ensures TiesOrdered(SortBy(s, key), key, pos)
  {
    if |s| > 0 {
      var tail := s[1..];
      assert TiesOrdered(tail, key, pos) by {
        forall i, j | 0 <= i < j < |tail| && key(tail[i]) == key(tail[j]) ensures pos(tail[i]) < pos(tail[j]) {
          assert tail[i] == s[i + 1] && tail[j] == s[j + 1];
        }
      }
      SortByTies(tail, key, pos);
      var t := SortBy(tail, key);
      forall i | 0 <= i < |t| && key(t[i]) == key(s[0]) ensures pos(s[0]) < pos(t[i]) {
        assert t[i] in multiset(tail);
        var a :| 0 <= a < |tail| && tail[a] == t[i];
        assert s[a + 1] == t[i];
      }
      InsertByTies(s[0], t, key, pos);
    }
  }

  /** Ascending numeric sort of integers: (a, b) => a - b. */
  function SortAscending(s: seq<int>): (r: seq<int>)
    ensures multiset(r) == multiset(s) && |r| == |s|
    ensures forall i, j :: 0 <= i < j < |r| ==> r[i] <= r[j]
  {
    var r := SortBy(s, x => x);
    assert SortedBy(r, x => x);
    r
  }

  /** Sorting distinct integers gives a strictly ascending sequence. */
  lemma SortDistinct(s: seq<int>)
    requires Distinct(s)
    ensures var r := SortAscending(s);
      Distinct(r) && (forall i, j :: 0 <= i < j < |r| ==> r[i] < r[j])
  {
    var r := SortAscending(s);
    DistinctMultiset(s);
    assert forall x :: multiset(r)[x] == multiset(s)[x];
    DistinctMultisetBack(r);
  }

  lemma {:induction false} DistinctMultiset<T>(s: seq<T>)
    requires Distinct(s)
    ensures forall x :: multiset(s)[x] <= 1
  {
    if |s| > 0 {
      var p := s[..|s| - 1];
      assert s == p + [s[|s| - 1]];
      DistinctMultiset(p);
      assert s[|s| - 1] !in p;
    }
  }

  lemma {:induction false} DistinctMultisetBack<T>(s: seq<T>)
    requires forall x :: multiset(s)[x] <= 1
    ensures Distinct(s)
  {
    if |s| > 0 {
      var p := s[..|s| - 1];
      assert s == p + [s[|s| - 1]];
      assert forall x :: multiset(p)[x] <= multiset(s)[x];
      DistinctMultisetBack(p);
      assert multiset(s)[s[|s| - 1]] == multiset(p)[s[|s| - 1]] + 1;
      assert s[|s| - 1] !in p;
    }
  }
}
