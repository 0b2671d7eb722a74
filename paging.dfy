/**
 * The paging DTOs shared by every list endpoint: the `PagedResult`
 * envelope with its derived `HasMore` and `TotalPages`, and the
 * `PaginationRequest` whose setters clamp what the client sends.
 */
module Paging {
  import opened Common

  /**
   * A page of results. `page`, `pageSize` and `totalCount` are C# `int`s;
   * the product in `HasMore` is unchecked 32-bit arithmetic.
   */
  datatype PagedResult<T> = PagedResult(items: seq<T>, page: int, pageSize: int, totalCount: int)
  {
    /** `Page * PageSize < TotalCount`, with the product wrapped to 32 bits. */
    predicate HasMore()
    {
      Wrap32(page * pageSize) < totalCount
    }

    /** The same test in exact arithmetic, as intended. */
    predicate HasMoreExact()
    {
      page * pageSize < totalCount
    }

    /**
     * `(int)Math.Ceiling(TotalCount / (double)PageSize)`. The double
     * quotient of two 32-bit integers is never rounded across an integer,
     * so the ceiling is the exact one. A zero page size divides into an
     * infinity or NaN whose cast has no specified value: `None`.
     */
    function TotalPages(): (r: Option<int>)
      ensures r.None? <==> pageSize == 0
      ensures r.Some? && pageSize > 0 ==> (r.value - 1) * pageSize < totalCount <= r.value * pageSize
    {
      if pageSize == 0 then None
      else
        var q := totalCount as real / pageSize as real;
        var c := -((-q).Floor);
        if pageSize > 0 then
          assert c as real - 1.0 < q <= c as real;
          CeilingBracket(totalCount, pageSize, c);
          Some(c)
        else Some(c)
    }
  }

  lemma CeilingBracket(total: int, size: int, c: int)
    requires size > 0
    requires c as real - 1.0 < total as real / size as real <= c as real
    ensures (c - 1) * size < total <= c * size
  {
    var q := total as real / size as real;
    assert q * size as real == total as real;
    MulMonotoneStrict(c as real - 1.0, q, size as real);
    MulMonotone(q, c as real, size as real);
  }

  lemma MulMonotoneStrict(a: real, b: real, c: real)
    requires a < b && c > 0.0
    ensures a * c < b * c
  {
    assert (b - a) * c > 0.0;
  }

  /** `new PagedResult<T>()`: no items, everything else 0. */
  function EmptyPage<T>(): (r: PagedResult<T>)
    ensures r.items == [] && r.totalCount == 0
    ensures !r.HasMore()
  {
    PagedResult([], 0, 0, 0)
  }

  /**
   * With a positive page size the exact test says there are more results
   * exactly when the page is before the last one.
   */
  lemma HasMoreExactBeforeLastPage<T>(r: PagedResult<T>)
    requires r.pageSize >= 1
    ensures r.HasMoreExact() <==> r.page < r.TotalPages().value
  {
    var t := r.TotalPages().value;
    if r.page < t {
      MulLe(r.page, t - 1, r.pageSize);
    } else {
      MulLe(t, r.page, r.pageSize);
    }
  }

  /** Within the 32-bit range the wrapped test agrees with the exact one. */
  lemma HasMoreBeforeLastPage<T>(r: PagedResult<T>)
    requires r.pageSize >= 1 && InInt32(r.page * r.pageSize)
    ensures r.HasMore() <==> r.HasMoreExact()
    ensures r.HasMore() <==> r.page < r.TotalPages().value
  {
    HasMoreExactBeforeLastPage(r);
  }

  lemma MulLe(a: int, b: int, c: int)
    requires a <= b && c >= 0
    ensures a * c <= b * c
  {
    assert (b - a) * c >= 0;
  }

  /**
   * Outside the 32-bit range the wrapped product can turn negative: page
   * 21474837 of 100 items reports more results in an empty list.
   */
  lemma HasMoreOverflows()
    ensures PagedResult<int>.PagedResult([], 21474837, 100, 0).HasMore()
    ensures !PagedResult<int>.PagedResult([], 21474837, 100, 0).HasMoreExact()
  {
  }

  /** The `Page` setter: anything below 1 is stored as 1. */
  function ClampPage(value: int): (r: int)
    ensures r >= 1
    ensures value >= 1 ==> r == value
    ensures value < 1 ==> r == 1
  {
    if value < 1 then 1 else value
  }

  /** The `PageSize` setter: below 1 falls back to 20, above 100 is capped at 100. */
  function ClampPageSize(value: int): (r: int)
    ensures 1 <= r <= 100
    ensures 1 <= value <= 100 ==> r == value
    ensures value < 1 ==> r == 20
    ensures value > 100 ==> r == 100
  {
    if value < 1 then 20 else if value > 100 then 100 else value
  }

  /** Both setters are idempotent: storing a stored value again keeps it. */
  lemma ClampsIdempotent(value: int)
    ensures ClampPage(ClampPage(value)) == ClampPage(value)
    ensures ClampPageSize(ClampPageSize(value)) == ClampPageSize(value)
  {
  }

  /** The query-string paging parameters, with clamping setters. */
  class PaginationRequest {
    var page: int
    var pageSize: int

    constructor()
      ensures page == 1 && pageSize == 20
    {
      page := 1;
      pageSize := 20;
    }

    predicate Valid()
      reads this
    {
      page >= 1 && 1 <= pageSize <= 100
    }

    method SetPage(value: int)
      modifies this
      ensures page == ClampPage(value) && pageSize == old(pageSize)
    {
      page := ClampPage(value);
    }

    method SetPageSize(value: int)
      modifies this
      ensures pageSize == ClampPageSize(value) && page == old(page)
    {
      pageSize := ClampPageSize(value);
    }
  }

  /** Whatever the client sends, a bound request is valid. */
  method BindPagination(page: Option<int>, pageSize: Option<int>) returns (r: PaginationRequest)
    ensures fresh(r) && r.Valid()
    ensures r.page == (if page.Some? then ClampPage(page.value) else 1)
    ensures r.pageSize == (if pageSize.Some? then ClampPageSize(pageSize.value) else 20)
  {
    r := new PaginationRequest();
    if page.Some? {
      r.SetPage(page.value);
    }
    if pageSize.Some? {
      r.SetPageSize(pageSize.value);
    }
  }
}
