/**
 * The pagination bar under the contact table: the window of page buttons, the Previous and
 * Next buttons, and the "start–end of total items" label.
 */
module Pagination {
  import opened Wrappers

  const PerPage := 20
  const MaxPages := 8

  function Min(a: int, b: int): int { if a <= b then a else b }
  function Max(a: int, b: int): int { if a >= b then a else b }

  /** The `pagination` prop; a missing field is None. */
  datatype PaginationProps = PaginationProps(page: Option<int>, count: Option<int>, totalPages: Option<int>, totalCount: Option<int>)

  /** The prop with its destructuring defaults applied. */
  datatype Settings = Settings(page: int, count: int, totalPages: int, totalCount: int)

  /** `const { page = 1, count = 0, totalPages = 1, totalCount = 0 } = pagination`. */
  function Resolve(p: PaginationProps): (s: Settings)
    ensures s.page == (if p.page.Some? then p.page.value else 1)
    ensures s.count == (if p.count.Some? then p.count.value else 0)
    ensures s.totalPages == (if p.totalPages.Some? then p.totalPages.value else 1)
    ensures s.totalCount == (if p.totalCount.Some? then p.totalCount.value else 0)
  {
    Settings(p.page.GetOr(1), p.count.GetOr(0), p.totalPages.GetOr(1), p.totalCount.GetOr(0))
  }

  /** `Array.from({ length: hi - lo + 1 }, (_, i) => lo + i)`; a negative length gives no element. */
  function Range(lo: int, hi: int): (r: seq<int>)
    ensures |r| == Max(0, hi - lo + 1)
    ensures forall i :: 0 <= i < |r| ==> r[i] == lo + i
  {
    seq(Max(0, hi - lo + 1), i => lo + i)
  }

  /** The first and last page of the window: centred on `page`, then pulled back from the end. */
  function WindowBounds(page: int, totalPages: int): (int, int) {
    var half := MaxPages / 2;
    var start := Max(1, page - half);
    var end := start + MaxPages - 1;
    if end > totalPages then
      (Max(1, totalPages - MaxPages + 1), totalPages)
    else
      (start, end)
  }

  /** The page numbers shown as buttons. */
  function PageWindow(page: int, totalPages: int): (w: seq<int>)
    ensures |w| == Min(MaxPages, Max(0, totalPages))
    ensures forall i :: 0 <= i < |w| ==> w[i] == w[0] + i
    ensures forall i :: 0 <= i < |w| ==> 1 <= w[i] <= totalPages
    ensures 1 <= page <= totalPages ==> page in w
    ensures page - 4 >= 1 && page + 3 <= totalPages ==> w == Range(page - 4, page + 3)
  {
    var (start, end) := WindowBounds(page, totalPages);
    var w := Range(start, end);
    assert 1 <= page <= totalPages ==> 0 <= page - start < |w| && w[page - start] == page;
    w
  }

  /** What a button asks of `onPageChange`: `(page, "page")`. */
  datatype PageRequest = PageRequest(page: int, key: string)

  /** The Previous button: disabled on the first page, otherwise a request for the page before. */
  function PreviousRequest(page: int): (r: Option<PageRequest>)
    ensures r.None? <==> page <= 1
    ensures r.Some? ==> r.value == PageRequest(page - 1, "page")
  {
    if page <= 1 then None else Some(PageRequest(page - 1, "page"))
  }

  /** The Next button: disabled on the last page, otherwise a request for the page after. */
  function NextRequest(page: int, totalPages: int): (r: Option<PageRequest>)
    ensures r.None? <==> page >= totalPages
    ensures r.Some? ==> r.value == PageRequest(page + 1, "page")
  {
    if page >= totalPages then None else Some(PageRequest(page + 1, "page"))
  }

  /** From a page in range, both buttons can only ask for a page in range. */
  lemma ButtonsStayInRange(page: int, totalPages: int)
    requires 1 <= page <= totalPages
    ensures PreviousRequest(page).Some? ==> 1 <= PreviousRequest(page).value.page <= totalPages
    ensures NextRequest(page, totalPages).Some? ==> 1 <= NextRequest(page, totalPages).value.page <= totalPages
  {
  }

  /** Next and then Previous come back to the page one started from. */
  lemma NextThenPrevious(page: int, totalPages: int)
    requires NextRequest(page, totalPages).Some? && page >= 1
    ensures PreviousRequest(NextRequest(page, totalPages).value.page) == Some(PageRequest(page, "page"))
  {
  }

  /** The label's first and last item, as the component computes them. */
  function ItemRange(page: int, count: int): (r: (int, int))
    ensures r.0 == (page - 1) * PerPage + 1
    ensures r.1 <= count && r.1 <= page * PerPage
    ensures r.1 == count || r.1 == page * PerPage
  {
    ((page - 1) * PerPage + 1, Min(page * PerPage, count))
  }

  /**
   * `count` is the number of rows on the current page (at most one page of them), so on every page
   * after the first the label's end falls below its start ("21–20 of 826 items" on page 2).
   */
  lemma ItemRangeInvertedAfterFirstPage(page: int, count: int)
    requires page >= 2 && count <= PerPage
    ensures ItemRange(page, count).1 < ItemRange(page, count).0
  {
  }

  /** The concrete case: a full second page of 20 rows. */
  lemma SecondFullPageLabel()
    ensures ItemRange(2, 20) == (21, 20)
  {
  }

  /**
   * The label as evidently intended is the same computation with the total count in place of
   * the page's row count. On a page in range whose row count is what the listing implies, it
   * spans exactly the rows shown and never passes the total.
   */
  lemma IntendedRangeSpansRows(page: int, count: int, totalCount: int)
    requires page >= 1 && (page - 1) * PerPage < totalCount
    requires count == Min(PerPage, totalCount - (page - 1) * PerPage)
    ensures var (start, end) := ItemRange(page, totalCount);
      1 <= start <= end <= totalCount && end - start + 1 == count
  {
  }

  /** The numbers of the label (start, end, total) from the prop, with the end bounded by the total count as intended. */
  function RangeLabel(p: PaginationProps): (r: (int, int, int))
    ensures r.2 == Resolve(p).totalCount
    ensures (r.0, r.1) == ItemRange(Resolve(p).page, Resolve(p).totalCount)
    ensures r.1 <= r.2
    ensures r.0 == (Resolve(p).page - 1) * PerPage + 1
    ensures p == PaginationProps(None, None, None, None) ==> r == (1, 0, 0)
  {
    var s := Resolve(p);
    var (start, end) := ItemRange(s.page, s.totalCount);
    (start, end, s.totalCount)
  }
}
