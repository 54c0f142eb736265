/** Page arithmetic shared by both search views: the catalog returns pages
    of ten results, pages are numbered from 1, and both views clamp
    "previous" with `Math.max(page - 1, 1)` and disable their buttons with
    the same two comparisons. */
module Pagination {

  /** Results per catalog page; fixed by the catalog, not by the client. */
  const PageSize: nat := 10

  /** `Math.ceil(total / 10)`: the fewest pages of ten that hold total
      results. */
  function TotalPages(total: nat): (n: nat)
    ensures n * PageSize >= total
    ensures n > 0 ==> (n - 1) * PageSize < total
    ensures total == 0 <==> n == 0
  {
    (total + PageSize - 1) / PageSize
  }

  /** `Math.max(page - 1, 1)`: one page back, never below the first. */
  function PrevPage(page: int): (p: int)
    ensures p >= 1
    ensures page > 1 ==> p == page - 1
    ensures page <= 1 ==> p == 1
  {
    if page - 1 > 1 then page - 1 else 1
  }

  /** `page === 1`: the disabled state of the previous-page button. */
  predicate PrevDisabled(page: int)
    ensures page >= 1 ==> (PrevDisabled(page) <==> PrevPage(page) == page)
  {
    page == 1
  }

  /** `page >= Math.ceil(total / 10)`: the disabled state of the next-page
      button. */
  predicate NextDisabled(page: int, total: nat)
    ensures NextDisabled(page, total) <==> page * PageSize >= total
  {
    page >= TotalPages(total)
  }

  /** From a page of at least 1, the previous-page button is enabled exactly
      when pressing it moves one page back. */
  lemma PrevEnabledIffStepBack(page: int)
    requires page >= 1
    ensures !PrevDisabled(page) <==> PrevPage(page) == page - 1
  {
  }

  /** A page within [1, TotalPages(total)] stays there after "previous". */
  lemma PrevStaysInRange(page: int, total: nat)
    requires 1 <= page <= TotalPages(total)
    ensures 1 <= PrevPage(page) <= TotalPages(total)
  {
  }
}
