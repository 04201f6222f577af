/** The fixed-size pager of the test-plan page: how many pages a list of test cases
    needs, which cases the current page shows, which page requests are accepted, and
    where the current page goes when the list shrinks. */
module Paging {

  /** `ITEMS_PER_PAGE`. */
  const ItemsPerPage: nat := 4

  /** `Math.max(1, Math.ceil(n / ITEMS_PER_PAGE))`: the fewest pages, and at least one,
      that hold `n` items. */
  function TotalPages(n: nat): (r: nat)
    ensures r >= 1 && n <= ItemsPerPage * r
    ensures r == 1 || ItemsPerPage * (r - 1) < n
  {
    if n == 0 then 1 else (n + ItemsPerPage - 1) / ItemsPerPage
  }

  /** No smaller positive page count holds `n` items. */
  lemma TotalPagesIsLeast(n: nat, r: nat)
    requires r >= 1 && n <= ItemsPerPage * r
    ensures TotalPages(n) <= r
  {
  }

  /** A page the pager can show for a list of `n` items. */
  predicate InRange(page: int, n: nat) {
    1 <= page <= TotalPages(n)
  }

  /** Index of the first item on `page`. */
  function PageStart(page: nat): nat
    requires page >= 1
  {
    (page - 1) * ItemsPerPage
  }

  /** `testCases.slice(startIndex, startIndex + ITEMS_PER_PAGE)`: the items shown on
      `page`, a contiguous run of at most four items starting at the page's first index
      (empty when the page lies past the end). */
  function PageSlice<T>(items: seq<T>, page: nat): (r: seq<T>)
    requires page >= 1
    ensures |r| <= ItemsPerPage
    ensures PageStart(page) >= |items| ==> r == []
    ensures PageStart(page) < |items| ==> |r| == if |items| - PageStart(page) < ItemsPerPage then |items| - PageStart(page) else ItemsPerPage
    ensures forall i :: 0 <= i < |r| ==> r[i] == items[PageStart(page) + i]
  {
    var start := PageStart(page);
    if start >= |items| then []
    else if start + ItemsPerPage <= |items| then items[start..start + ItemsPerPage]
    else items[start..]
  }

  /** Every item is shown on exactly one in-range page, at its index modulo four. */
  lemma ItemOnItsPage<T>(items: seq<T>, i: nat)
    requires i < |items|
    ensures InRange(i / ItemsPerPage + 1, |items|)
    ensures var p := PageSlice(items, i / ItemsPerPage + 1);
      i % ItemsPerPage < |p| && p[i % ItemsPerPage] == items[i]
  {
    var page := i / ItemsPerPage + 1;
    assert PageStart(page) + i % ItemsPerPage == i;
  }

  /** A page shows something exactly when it is in range and the list is not empty. */
  lemma PageNonEmptyIff<T>(items: seq<T>, page: nat)
    requires page >= 1
    ensures PageSlice(items, page) != [] <==> |items| > 0 && InRange(page, |items|)
  {
    var t := TotalPages(|items|);
    if page > t {
      assert ItemsPerPage * t <= ItemsPerPage * (page - 1);
    }
    if |items| > 0 && page <= t && page > 1 {
      assert ItemsPerPage * (page - 1) <= ItemsPerPage * (t - 1);
    }
  }

  /** `handlePageChange(requested)`: the current page after a page request on a list of
      `n` items. Only an in-range request is followed, so an in-range page stays in range. */
  function PageChange(current: int, requested: int, n: nat): (r: int)
    ensures r != current ==> r == requested && InRange(requested, n)
    ensures InRange(requested, n) ==> r == requested
    ensures InRange(current, n) ==> InRange(r, n)
  {
    if 1 <= requested && requested <= TotalPages(n) then requested else current
  }

  /** The page after removing one case (`confirmRemove`, `handleUploadSingle`): it drops by
      one when its first index falls at or past the new length and it is not the first.
      When exactly one item went away from a list whose page was in range, the adjusted
      page is in range again, so it shows items whenever any remain. */
  function PageAfterRemove(page: nat, newLength: nat): (r: nat)
    requires page >= 1
    ensures r == page || r == page - 1
    ensures r >= 1
    ensures InRange(page, newLength + 1) ==> InRange(r, newLength)
  {
    if PageStart(page) >= newLength && page > 1 then page - 1 else page
  }

  /** The page after a bulk removal (`confirmBulkDelete`, `handleBulkUpload`): clamped to
      the new page count. The result is in range, and an in-range page is kept. */
  function ClampPage(page: nat, newLength: nat): (r: nat)
    requires page >= 1
    ensures InRange(r, newLength)
    ensures InRange(page, newLength) ==> r == page
    ensures r <= page
  {
    if page > TotalPages(newLength) then TotalPages(newLength) else page
  }
}
