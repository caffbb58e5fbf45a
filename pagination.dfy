/**
 * The pager under the dashboard tables: up to five consecutive page buttons around the current
 * page, and the previous/next buttons with their disabled states.
 */
module DataTable {

  const MaxVisiblePages: int := 5

  /** What the pager shows: the numbered buttons, and whether previous and next are disabled. */
  datatype Pager = Pager(pages: seq<int>, prevDisabled: bool, nextDisabled: bool)

  function Max(a: int, b: int): int { if a >= b then a else b }
  function Min(a: int, b: int): int { if a <= b then a else b }

  /**
   * The pager for `page` of `totalPages`: a run of consecutive pages inside 1..totalPages, five
   * of them whenever there are that many pages (all of them otherwise), holding the current page
   * when it is in range and centred on it when it is at least two pages from either end.
   */
  method Pagination(page: int, totalPages: int) returns (r: Pager)
    ensures |r.pages| == Min(MaxVisiblePages, Max(totalPages, 0))
    ensures forall i :: 0 <= i < |r.pages| ==> r.pages[i] == r.pages[0] + i
    ensures forall i :: 0 <= i < |r.pages| ==> 1 <= r.pages[i] <= totalPages
    ensures 1 <= page <= totalPages ==> page in r.pages
    ensures 3 <= page <= totalPages - 2 ==> r.pages[0] == page - 2
    ensures |r.pages| > 0 ==> r.pages[0] == Max(1, Min(page - 2, totalPages - 4))
    ensures r.prevDisabled <==> page == 1
    ensures r.nextDisabled <==> page == totalPages
  {
    var pages: seq<int> := [];
    var startPage := Max(1, page - MaxVisiblePages / 2);
    var endPage := Min(totalPages, startPage + MaxVisiblePages - 1);
    if endPage - startPage + 1 < MaxVisiblePages {
      startPage := Max(1, endPage - MaxVisiblePages + 1);
    }
    var i := startPage;
    while i <= endPage
      invariant startPage <= i <= Max(startPage, endPage + 1)
      invariant |pages| == i - startPage
      invariant forall j :: 0 <= j < |pages| ==> pages[j] == startPage + j
    {
      pages := pages + [i];
      i := i + 1;
    }
    if 1 <= page <= totalPages {
      assert pages[page - startPage] == page;
    }
    r := Pager(pages, page == 1, page == totalPages);
  }
}
