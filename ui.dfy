/**
 * The result page's view state: the current page of the ordered result
 * list, the highlighted number and the sort of the frequency table, with
 * the buttons that change them and the watcher that sends the page back to
 * the first one whenever the ordered list changes.
 */
module Ui {
  import opened Wrappers
  import opened Seqs
  import opened Core
  import opened Filters
  import opened Computed

  /** Math.ceil(len / size) || 1: the page count, one page even for an empty list. */
  function UiTotalPages(len: nat, size: nat): (pages: nat)
    requires size >= 1
    ensures pages >= 1
    ensures pages == if len == 0 then 1 else TotalPages(len, size)
  {
    var ceil := TotalPages(len, size);
    if ceil == 0 then 1 else ceil
  }

  /** toggleHighlight: the same number clears the highlight, another one takes its place. */
  function ToggledHighlight(current: Option<string>, num: string): (next: Option<string>)
    ensures current == Some(num) ==> next == None
    ensures current != Some(num) ==> next == Some(num)
  {
    if current == Some(num) then None else Some(num)
  }

  /**
   * Toggling the same number twice gives the highlight back exactly when
   * nothing or that number was highlighted; another highlighted number is
   * lost (the first toggle replaces it, the second clears).
   */
  lemma ToggleHighlightTwice(current: Option<string>, num: string)
    ensures ToggledHighlight(ToggledHighlight(current, num), num) == current <==> current.None? || current == Some(num)
    ensures current.Some? && current != Some(num) ==> ToggledHighlight(ToggledHighlight(current, num), num).None?
  {
  }

  /** sortFrequency: the same column flips the order, a new column starts descending. */
  function FrequencySort(column: FreqColumn, order: SortOrder, col: FreqColumn): (next: (FreqColumn, SortOrder))
    ensures next.0 == col
    ensures col == column ==> next.1 == Toggled(order) && next.1 != order
    ensures col != column ==> next.1 == Desc
  {
    if column == col then (column, if order == Asc then Desc else Asc) else (col, Desc)
  }

  /** Sorting twice by the same column gives the sort back. */
  lemma SortFrequencyTwice(column: FreqColumn, order: SortOrder)
    ensures var next := FrequencySort(column, order, column);
      FrequencySort(next.0, next.1, column) == (column, order)
  {
  }

  /** The view state of the result page. */
  class ResultsView {
    var currentPage: int
    const pageSize: nat
    var highlightNum: Option<string>
    var freqSortColumn: FreqColumn
    var freqSortOrder: SortOrder
    /** The ordered result list the page shows (sortedResults). */
    var sorted: seq<Row>

    /** The current page is one of the pages of the list. */
    predicate Valid()
      reads this
    {
      pageSize >= 1 && 1 <= currentPage <= UiTotalPages(|sorted|, pageSize)
    }

    /** First page, nothing highlighted, table by count descending, pages of 50 rows. */
    constructor ()
      ensures Valid() && currentPage == 1 && pageSize == 50 && sorted == []
      ensures highlightNum == None && freqSortColumn == CountColumn && freqSortOrder == Desc
    {
      currentPage := 1;
      pageSize := 50;
      highlightNum := None;
      freqSortColumn := CountColumn;
      freqSortOrder := Desc;
      sorted := [];
    }

    function TotalPagesNow(): (pages: nat)
      reads this
      requires Valid()
      ensures pages >= 1
    {
      UiTotalPages(|sorted|, pageSize)
    }

    /**
     * paginatedResults: the rows of the current page; only an empty list has
     * an empty page.
     */
    function PaginatedResults(): (rows: seq<Row>)
      reads this
      requires Valid()
      ensures |rows| <= pageSize
      ensures forall i :: 0 <= i < |rows| ==>
        (currentPage - 1) * pageSize + i < |sorted| && rows[i] == sorted[(currentPage - 1) * pageSize + i]
      ensures |rows| == 0 <==> |sorted| == 0
    {
      PageNonEmpty(sorted, currentPage as nat, pageSize);
      Paginated(sorted, currentPage as nat, pageSize)
    }

    /** changePage: a step of dir pages. */
    method ChangePage(dir: int)
      modifies this`currentPage
      ensures currentPage == old(currentPage) + dir
    {
      currentPage := currentPage + dir;
    }

    /** nextPage: one page on, unless on the last page. */
    method NextPage()
      requires Valid()
      modifies this`currentPage
      ensures Valid()
      ensures currentPage == if old(currentPage) < TotalPagesNow() then old(currentPage) + 1 else old(currentPage)
    {
      if currentPage < TotalPagesNow() {
        ChangePage(1);
      }
    }

    /** prevPage: one page back, unless on the first page. */
    method PrevPage()
      requires Valid()
      modifies this`currentPage
      ensures Valid()
      ensures currentPage == if old(currentPage) > 1 then old(currentPage) - 1 else old(currentPage)
    {
      if currentPage > 1 {
        ChangePage(-1);
      }
    }

    /** toggleHighlight. */
    method ToggleHighlight(num: string)
      modifies this`highlightNum
      ensures highlightNum == ToggledHighlight(old(highlightNum), num)
    {
      highlightNum := if highlightNum == Some(num) then None else Some(num);
    }

    /** sortFrequency. */
    method SortFrequency(col: FreqColumn)
      modifies this`freqSortColumn, this`freqSortOrder
      ensures (freqSortColumn, freqSortOrder) == FrequencySort(old(freqSortColumn), old(freqSortOrder), col)
    {
      if freqSortColumn == col {
        freqSortOrder := if freqSortOrder == Asc then Desc else Asc;
      } else {
        freqSortColumn := col;
        freqSortOrder := Desc;
      }
    }

    /** A new ordered list: the watcher on sortedResults sends the view to page 1. */
    method SortedResultsChanged(rows: seq<Row>)
      requires pageSize >= 1
      modifies this`sorted, this`currentPage
      ensures Valid() && sorted == rows && currentPage == 1
    {
      sorted := rows;
      currentPage := 1;
    }
  }
}
