/** The page arithmetic that every list page of the client repeats: the number
    of pages, the Previous and Next buttons, and the row numbers of a table. */
module Pagination {

  /** `Math.ceil(total / limit)` for a positive whole limit: the least number of
      pages of `limit` rows that holds `total` rows. */
  function TotalPages(total: nat, limit: int): (r: nat)
    requires limit >= 1
    ensures total <= r * limit
    ensures r == 0 || (r - 1) * limit < total
    ensures r == 0 <==> total == 0
  {
    var q := (total + limit - 1) / limit;
    assert q * limit <= total + limit - 1 < (q + 1) * limit;
    q
  }

  /** The Previous button: `Math.max(page - 1, 1)`. */
  function PreviousPage(page: int): (r: int)
    ensures r >= 1
    ensures page >= 2 ==> r == page - 1
    ensures page <= 2 ==> r == 1
  {
    if page - 1 > 1 then page - 1 else 1
  }

  /** The Next button: `Math.min(page + 1, totalPages)`. */
  function NextPage(page: int, totalPages: int): (r: int)
    ensures r <= totalPages
    ensures page < totalPages ==> r == page + 1
    ensures page >= totalPages ==> r == totalPages
  {
    if page + 1 < totalPages then page + 1 else totalPages
  }

  /** `disabled={page === 1}` on Previous. */
  predicate PreviousDisabled(page: int) {
    page == 1
  }

  /** `disabled={page === totalPages}` on Next. */
  predicate NextDisabled(page: int, totalPages: int) {
    page == totalPages
  }

  /** Within the page range, a button is disabled exactly when pressing it would
      not change the page; an enabled button moves by exactly one page. */
  lemma DisabledExactlyWhenStill(page: int, totalPages: int)
    requires 1 <= page <= totalPages
    ensures PreviousDisabled(page) <==> PreviousPage(page) == page
    ensures NextDisabled(page, totalPages) <==> NextPage(page, totalPages) == page
    ensures !PreviousDisabled(page) ==> PreviousPage(page) == page - 1
    ensures !NextDisabled(page, totalPages) ==> NextPage(page, totalPages) == page + 1
  {
  }

  /** The number shown in the first column: `index + 1 + limit * (page - 1)`. */
  function RowNumber(index: nat, page: int, limit: int): int {
    index + 1 + limit * (page - 1)
  }

  /** Within the page range, both buttons stay within the page range, Previous
      never moves forward and Next never moves back. */
  lemma ButtonsStayInRange(page: int, totalPages: int)
    requires 1 <= page <= totalPages
    ensures 1 <= PreviousPage(page) <= page
    ensures page <= NextPage(page, totalPages) <= totalPages
  {
  }

  /** A page past the end (after the limit grew) is pulled back to the last
      page by Next. */
  lemma NextPullsBackIntoRange(page: int, totalPages: int)
    requires 1 <= totalPages < page
    ensures NextPage(page, totalPages) == totalPages
  {
  }

  /** With no rows there are no pages, and Next then leaves the range: from
      page 1 it goes to page 0, which `page === totalPages` does not disable. */
  lemma NextOnEmptyListing(limit: int)
    requires limit >= 1
    ensures TotalPages(0, limit) == 0
    ensures NextPage(1, TotalPages(0, limit)) == 0
    ensures !NextDisabled(1, TotalPages(0, limit))
  {
  }

  /** Every row index below the total lies on one of the counted pages. */
  lemma {:induction false} EveryRowHasAPage(k: nat, total: nat, limit: int)
    requires limit >= 1
    requires k < total
    ensures 1 <= k / limit + 1 <= TotalPages(total, limit)
  {
    var t := TotalPages(total, limit);
    var p := k / limit;
    assert p * limit <= k < t * limit;
    MulCancel(p, t, limit);
  }

  /** Dividing both sides of a strict inequality by the same positive factor. */
  lemma MulCancel(a: int, b: int, c: int)
    requires c >= 1 && a * c < b * c
    ensures a < b
  {
    if b <= a {
      MulMonotone(b, a, c);
    }
  }

  lemma MulMonotone(a: int, b: int, c: int)
    requires a <= b && c >= 0
    ensures a * c <= b * c
  {
  }

  /** On page `page` the rows are numbered consecutively from
      `(page - 1) * limit + 1`, and a page of at most `limit` rows ends at
      `page * limit`. */
  lemma RowsOfPage(index: nat, page: int, limit: int)
    requires limit >= 1 && page >= 1 && index < limit
    ensures RowNumber(index, page, limit) == (page - 1) * limit + index + 1
    ensures (page - 1) * limit < RowNumber(index, page, limit) <= page * limit
    ensures RowNumber(index + 1, page, limit) == RowNumber(index, page, limit) + 1
  {
  }

  /** Two rows on pages of at most `limit` rows never share a number unless
      they are the same row of the same page. */
  lemma {:induction false} RowNumbersDistinct(i1: nat, p1: int, i2: nat, p2: int, limit: int)
    requires limit >= 1 && p1 >= 1 && p2 >= 1 && i1 < limit && i2 < limit
    requires RowNumber(i1, p1, limit) == RowNumber(i2, p2, limit)
    ensures i1 == i2 && p1 == p2
  {
    RowsOfPage(i1, p1, limit);
    RowsOfPage(i2, p2, limit);
    if p1 < p2 {
      MulMonotone(p1, p2 - 1, limit);
      assert false;
    } else if p2 < p1 {
      MulMonotone(p2, p1 - 1, limit);
      assert false;
    }
  }

  /** The pagination state of one list page: the page shown, the page size and
      the page count of the last successful fetch. */
  class Pager {
    var page: int
    var limit: int
    var totalPages: int

    ghost predicate Valid()
      reads this
    {
      limit >= 1 && page >= 0 && totalPages >= 0
    }

    /** `useState(1)`, `useState(10)`, `useState(1)`. */
    constructor ()
      ensures Valid()
      ensures page == 1 && limit == 10 && totalPages == 1
    {
      page, limit, totalPages := 1, 10, 1;
    }

    method Previous()
      requires Valid()
      modifies this
      ensures Valid()
      ensures page == PreviousPage(old(page))
      ensures limit == old(limit) && totalPages == old(totalPages)
    {
      page := PreviousPage(page);
    }

    method Next()
      requires Valid()
      modifies this
      ensures Valid()
      ensures page == NextPage(old(page), old(totalPages))
      ensures limit == old(limit) && totalPages == old(totalPages)
    {
      page := NextPage(page, totalPages);
    }

    /** The page size control; a size below one is outside the model. */
    method SetLimit(n: int)
      requires Valid() && n >= 1
      modifies this
      ensures Valid()
      ensures limit == n && page == old(page) && totalPages == old(totalPages)
    {
      limit := n;
    }

    /** `setTotalPages(Math.ceil(totalItems / limit))` after a successful fetch. */
    method ApplyTotal(total: nat)
      requires Valid()
      modifies this
      ensures Valid()
      ensures totalPages == TotalPages(total, limit)
      ensures page == old(page) && limit == old(limit)
    {
      totalPages := TotalPages(total, limit);
    }
  }
}
