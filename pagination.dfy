/** Pagination of list endpoints: the query parameters and the page metadata. */
module Pagination {
  import opened Wrappers

  /** `limit` items per page after skipping `offset` items. */
  datatype PaginationParams = PaginationParams(limit: int, offset: int) {

    /** The bounds the query parameters are validated against. */
    predicate Valid()
    {
      1 <= limit <= 100 && 0 <= offset
    }
  }

  /** One page of a list response: the items and their metadata. */
  datatype Listing<T> = Listing(data: seq<T>, meta: PaginationMeta)

  /**
   * The query parameters as FastAPI validates them: `limit` defaults to 20
   * and must lie in 1..100, `offset` defaults to 0 and must not be
   * negative. None stands for the request being rejected before any
   * service runs.
   */
  function MakeParams(limit: Option<int>, offset: Option<int>): (r: Option<PaginationParams>)
    ensures r.Some? <==> (1 <= limit.GetOr(20) <= 100 && 0 <= offset.GetOr(0))
    ensures r.Some? ==> r.value.Valid()
    ensures r.Some? ==> r.value.limit == limit.GetOr(20) && r.value.offset == offset.GetOr(0)
  {
    var l := limit.GetOr(20);
    var o := offset.GetOr(0);
    if 1 <= l <= 100 && 0 <= o then Some(PaginationParams(l, o)) else None
  }

  /** The metadata a list response carries. */
  datatype PaginationMeta = PaginationMeta(total: int, limit: int, offset: int) {

    /** More items exist after this page. */
    predicate HasMore()
    {
      offset + limit < total
    }

    /** The 1-based number of the page starting at `offset`. */
    function Page(): (p: int)
      ensures limit > 0 ==> (p - 1) * limit <= offset < p * limit
      ensures limit <= 0 ==> p == 1
    {
      if limit > 0 then offset / limit + 1 else 1
    }

    /** The number of pages needed to show `total` items. */
    function TotalPages(): (n: int)
      ensures limit > 0 ==> (n - 1) * limit < total <= n * limit
      ensures limit > 0 && total >= 0 ==> n >= 0
      ensures limit <= 0 ==> n == 1
    {
      if limit > 0 then (total + limit - 1) / limit else 1
    }
  }

  /** The metadata of an empty listing reports no pages at all. */
  lemma EmptyListingHasNoPages(limit: int, offset: int)
    requires limit > 0 && offset >= 0
    ensures PaginationMeta(0, limit, offset).TotalPages() == 0
    ensures !PaginationMeta(0, limit, offset).HasMore()
  {
    assert (limit - 1) / limit == 0;
  }

  /** When more items follow, the current page is not the last one. */
  lemma HasMoreNotLastPage(m: PaginationMeta)
    requires m.limit > 0 && m.offset >= 0
    requires m.HasMore()
    ensures m.Page() < m.TotalPages()
  {
    var p := m.Page();
    var n := m.TotalPages();
    assert p * m.limit <= m.offset + m.limit by {
      assert (p - 1) * m.limit <= m.offset;
    }
    assert p * m.limit < n * m.limit;
    CancelFactor(p, n, m.limit);
  }

  /** On a page boundary the converse holds too. */
  lemma AlignedHasMoreIffNotLast(m: PaginationMeta)
    requires m.limit > 0 && m.offset >= 0 && m.total >= 0
    requires m.offset % m.limit == 0
    ensures m.HasMore() <==> m.Page() < m.TotalPages()
  {
    if m.HasMore() {
      HasMoreNotLastPage(m);
    }
    var p := m.Page();
    var n := m.TotalPages();
    assert m.offset == (p - 1) * m.limit by {
      assert m.offset == (m.offset / m.limit) * m.limit;
    }
    if p < n {
      MultiplyMonotone(p + 1, n, m.limit);
      assert (n - 1) * m.limit < m.total;
      assert p * m.limit <= (n - 1) * m.limit by {
        MultiplyMonotone(p, n - 1, m.limit);
      }
      assert m.offset + m.limit == p * m.limit;
    }
  }

  lemma CancelFactor(a: int, b: int, c: int)
    requires c > 0 && a * c < b * c
    ensures a < b
  {
    assert (b - a) * c > 0;
  }

  lemma MultiplyMonotone(a: int, b: int, c: int)
    requires a <= b && c >= 0
    ensures a * c <= b * c
  {
    assert b * c - a * c == (b - a) * c;
  }
}
