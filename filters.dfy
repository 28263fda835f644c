/**
 * The result filters: the per-row check, the filtered and ordered result
 * list, the list of earlier games, the count of active filters, and the
 * panel state (filter form and sort order) that the buttons change.
 */
module Filters {
  import opened Seqs
  import opened Text
  import opened Core
  import opened Validation

  datatype SortOrder = Asc | Desc

  /**
   * The filter form. A text field is Unset when empty ('') and At(v) when it
   * holds the number v; the start date is the day key of the chosen date.
   */
  datatype FilterForm = FilterForm(
    startDate: Bound, endDate: Bound,
    day: Bound, month: Bound, year: Bound, leapYear: bool,
    evenMin: Bound, evenMax: Bound, primeMin: Bound, primeMax: Bound,
    sumMin: Bound, sumMax: Bound)

  /** The form with every field empty. */
  const EmptyForm := FilterForm(Unset, Unset, Unset, Unset, Unset, false, Unset, Unset, Unset, Unset, Unset, Unset)

  /** A set field requires equality. */
  predicate Matches(x: int, b: Bound)
  {
    b.Unset? || x == b.v
  }

  /** checkFilters: each filter in the order of the source, the first failing one rejects. */
  function CheckFilters(f: FilterForm, row: Row): (ok: bool)
    ensures ok <==>
      AtLeast(row.stats.time, f.startDate) &&
      Matches(row.stats.d, f.day) && Matches(row.stats.m, f.month) && Matches(row.stats.y, f.year) &&
      (f.leapYear ==> row.stats.isLeap) &&
      AtLeast(row.stats.even, f.evenMin) && AtMost(row.stats.even, f.evenMax) &&
      AtLeast(row.stats.primes, f.primeMin) && AtMost(row.stats.primes, f.primeMax) &&
      AtLeast(row.stats.sum, f.sumMin) && AtMost(row.stats.sum, f.sumMax)
  {
    var s := row.stats;
    if !AtLeast(s.time, f.startDate) then false
    else if !Matches(s.d, f.day) then false
    else if !Matches(s.m, f.month) then false
    else if !Matches(s.y, f.year) then false
    else if f.leapYear && !s.isLeap then false
    else if !AtLeast(s.even, f.evenMin) then false
    else if !AtMost(s.even, f.evenMax) then false
    else if !AtLeast(s.primes, f.primeMin) then false
    else if !AtMost(s.primes, f.primeMax) then false
    else if !AtLeast(s.sum, f.sumMin) then false
    else if !AtMost(s.sum, f.sumMax) then false
    else true
  }

  /** The number of active filter groups (a min/max pair counts once). */
  function ActiveCount(f: FilterForm): nat
  {
    (if f.startDate.At? then 1 else 0) + (if f.day.At? then 1 else 0) +
    (if f.month.At? then 1 else 0) + (if f.year.At? then 1 else 0) +
    (if f.leapYear then 1 else 0) +
    (if f.evenMin.At? || f.evenMax.At? then 1 else 0) +
    (if f.primeMin.At? || f.primeMax.At? then 1 else 0) +
    (if f.sumMin.At? || f.sumMax.At? then 1 else 0)
  }

  /** activeFiltersCount: a counter bumped once per active group. */
  method ActiveFiltersCount(f: FilterForm) returns (c: nat)
    ensures c == ActiveCount(f) && c <= 8
    ensures c == 0 ==> forall row :: CheckFilters(f, row)
  {
    c := 0;
    if f.startDate.At? { c := c + 1; }
    if f.day.At? { c := c + 1; }
    if f.month.At? { c := c + 1; }
    if f.year.At? { c := c + 1; }
    if f.leapYear { c := c + 1; }
    if f.evenMin.At? || f.evenMax.At? { c := c + 1; }
    if f.primeMin.At? || f.primeMax.At? { c := c + 1; }
    if f.sumMin.At? || f.sumMax.At? { c := c + 1; }
  }

  /** With no filter active every row passes. */
  lemma NoActiveFilterPassesAll(f: FilterForm, row: Row)
    requires ActiveCount(f) == 0
    ensures CheckFilters(f, row)
  {
  }

  /** The key of the sort: the game number, negated for descending order. */
  function GameKey(order: SortOrder): Row -> int
  {
    (r: Row) => if order == Asc then ParseInt(r.game) as int else -(ParseInt(r.game) as int)
  }

  /** sortedResults: the rows passing the filters, stably ordered by game number. */
  function SortedResults(results: seq<Row>, f: FilterForm, order: SortOrder): (sorted: seq<Row>)
    ensures multiset(sorted) == multiset(Filter(results, (r: Row) => CheckFilters(f, r)))
    ensures SortedBy(sorted, GameKey(order))
  {
    SortBy(Filter(results, (r: Row) => CheckFilters(f, r)), GameKey(order))
  }

  /** The sorted list holds exactly the rows of the results that pass the filters. */
  lemma SortedResultsMembers(results: seq<Row>, f: FilterForm, order: SortOrder, r: Row)
    ensures r in SortedResults(results, f, order) <==> r in results && CheckFilters(f, r)
  {
    var list := Filter(results, (r: Row) => CheckFilters(f, r));
    assert r in SortedResults(results, f, order) <==> r in multiset(list);
  }

  /** Ascending order lists smaller game numbers first, descending order larger ones. */
  lemma SortedResultsOrder(results: seq<Row>, f: FilterForm, order: SortOrder, i: nat, j: nat)
    requires i < j < |SortedResults(results, f, order)|
    ensures var sorted := SortedResults(results, f, order);
      if order == Asc then ParseInt(sorted[i].game) <= ParseInt(sorted[j].game)
      else ParseInt(sorted[i].game) >= ParseInt(sorted[j].game)
  {
    var sorted := SortedResults(results, f, order);
    assert GameKey(order)(sorted[i]) <= GameKey(order)(sorted[j]);
  }

  /** filterPastGames: the rows of games before the given one that pass the filters, in order. */
  function FilterPastGames(results: seq<Row>, f: FilterForm, currentGameId: int): (past: seq<Row>)
    ensures forall r :: r in past <==> r in results && ParseInt(r.game) < currentGameId && CheckFilters(f, r)
    ensures |past| <= |results|
  {
    if |results| == 0 then []
    else
      var r := results[0];
      assert results == [r] + results[1..];
      (if ParseInt(r.game) < currentGameId && CheckFilters(f, r) then [r] else []) +
      FilterPastGames(results[1..], f, currentGameId)
  }

  function Toggled(o: SortOrder): SortOrder
  {
    if o == Asc then Desc else Asc
  }

  /** The filter panel: the form and the sort order of the result list. */
  class FilterPanel {
    var sortOrder: SortOrder
    var filters: FilterForm

    constructor ()
      ensures sortOrder == Desc && filters == EmptyForm
    {
      sortOrder := Desc;
      filters := EmptyForm;
    }

    /** cleanFilters: every field back to empty. */
    method CleanFilters()
      modifies this
      ensures filters == EmptyForm && sortOrder == old(sortOrder)
      ensures ActiveCount(filters) == 0
    {
      filters := EmptyForm;
    }

    /** toggleSort: asc becomes desc and desc becomes asc. */
    method ToggleSort()
      modifies this
      ensures sortOrder == Toggled(old(sortOrder)) && sortOrder != old(sortOrder)
      ensures filters == old(filters)
    {
      sortOrder := if sortOrder == Asc then Desc else Asc;
    }
  }

  /** Toggling twice restores the order. */
  lemma ToggleTwice(o: SortOrder)
    ensures Toggled(Toggled(o)) == o && Toggled(o) != o
  {
  }
}
