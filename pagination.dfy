/** The previous/next buttons under the test-plan list (Pagination.tsx). They hold no
    state: each click either asks the page for a new page number or does nothing. */
module Pagination {
  import opened Common
  import opened Paging

  /** `handlePrev`: asks for the page before, unless on the first page. */
  function PrevRequest(currentPage: int): (r: Option<int>)
    ensures r.Some? <==> currentPage > 1
    ensures r.Some? ==> r.value == currentPage - 1
  {
    if currentPage > 1 then Some(currentPage - 1) else None
  }

  /** `handleNext`: asks for the page after, unless on the last page. */
  function NextRequest(currentPage: int, totalPages: int): (r: Option<int>)
    ensures r.Some? <==> currentPage < totalPages
    ensures r.Some? ==> r.value == currentPage + 1
  {
    if currentPage < totalPages then Some(currentPage + 1) else None
  }

  /** The `disabled` flag of the previous button. */
  predicate PrevDisabled(currentPage: int) {
    currentPage == 1
  }

  /** The `disabled` flag of the next button. */
  predicate NextDisabled(currentPage: int, totalPages: int) {
    currentPage == totalPages
  }

  /** On an in-range page, a button is disabled exactly when clicking it would ask for
      nothing, and every page it does ask for is in range, so the page's own guard
      (`handlePageChange`) follows it. */
  lemma ButtonsAgreeWithGuards(currentPage: int, n: nat)
    requires InRange(currentPage, n)
    ensures PrevDisabled(currentPage) <==> PrevRequest(currentPage).None?
    ensures NextDisabled(currentPage, TotalPages(n)) <==> NextRequest(currentPage, TotalPages(n)).None?
    ensures PrevRequest(currentPage).Some? ==>
      InRange(PrevRequest(currentPage).value, n) &&
      PageChange(currentPage, PrevRequest(currentPage).value, n) == currentPage - 1
    ensures NextRequest(currentPage, TotalPages(n)).Some? ==>
      InRange(NextRequest(currentPage, TotalPages(n)).value, n) &&
      PageChange(currentPage, NextRequest(currentPage, TotalPages(n)).value, n) == currentPage + 1
  {
  }
}
