/** Page parameters and page metadata for the listing endpoints
    (back/src/utils/pagination.util.ts), and the `slice` the services take
    of a sorted result. */
module Pagination {
  import opened Common

  datatype Meta = Meta(page: int, limit: int, total: int, totalPages: int,
                       hasNextPage: bool, hasPrevPage: bool)

  /** `Math.max(1, page || 1)` and `Math.min(100, Math.max(1, limit || 10))`:
      a missing or zero value falls back to the default, then the value is clamped. */
  function Normalize(page: Option<int>, limit: Option<int>): (r: (int, int))
    ensures r.0 >= 1
    ensures page.Some? && page.value >= 1 ==> r.0 == page.value
    ensures page.None? || page.value <= 1 ==> r.0 == 1
    ensures 1 <= r.1 <= 100
    ensures limit.None? || limit.value == 0 ==> r.1 == 10
    ensures limit.Some? && 1 <= limit.value <= 100 ==> r.1 == limit.value
    ensures limit.Some? && limit.value > 100 ==> r.1 == 100
    ensures limit.Some? && limit.value < 0 ==> r.1 == 1
  {
    var p := if page.Some? && page.value != 0 then page.value else 1;
    var l := if limit.Some? && limit.value != 0 then limit.value else 10;
    var page' := if p < 1 then 1 else p;
    var limit' := if l < 1 then 1 else if l > 100 then 100 else l;
    (page', limit')
  }

  /** `calculatePagination`: the page count rounds up, and the page, limit and
      total are echoed. */
  function Calculate(page: int, limit: int, total: int): (m: Meta)
    requires limit >= 1
    ensures m.page == page && m.limit == limit && m.total == total
    ensures limit * (m.totalPages - 1) < total <= limit * m.totalPages
    ensures m.hasNextPage <==> page < m.totalPages
    ensures m.hasPrevPage <==> page > 1
  {
    var totalPages := CeilDiv(total, limit);
    Meta(page, limit, total, totalPages, page < totalPages, page > 1)
  }

  /** `items.slice((page - 1) * limit, (page - 1) * limit + limit)`, clamped
      to the sequence as JavaScript's slice clamps. */
  function PageSlice<T>(s: seq<T>, page: int, limit: int): (r: seq<T>)
    requires page >= 1 && limit >= 1
    ensures |r| <= limit
    ensures forall k :: 0 <= k < |r| ==> (page - 1) * limit + k < |s| && r[k] == s[(page - 1) * limit + k]
    ensures (page - 1) * limit + limit <= |s| ==> |r| == limit
    ensures (page - 1) * limit >= |s| ==> r == []
  {
    var start := (page - 1) * limit;
    var end := start + limit;
    if start >= |s| then []
    else if end >= |s| then s[start..]
    else s[start..end]
  }

  /** There is a next page exactly when the items on pages 1..page do not
      cover the total. */
  lemma HasNextPageIff(page: int, limit: int, total: int)
    requires limit >= 1 && page >= 1
    ensures Calculate(page, limit, total).hasNextPage <==> page * limit < total
  {
    var n := Calculate(page, limit, total).totalPages;
    if page < n {
      assert page <= n - 1;
      MulMonotone(limit, page, n - 1);
    } else {
      MulMonotone(limit, n, page);
    }
  }

  lemma MulMonotone(c: int, a: int, b: int)
    requires c >= 0 && a <= b
    ensures c * a <= c * b
  {
    assert c * b - c * a == c * (b - a);
  }

  /** The item at position `pos` of page `page` is item
      `(page - 1) * limit + pos` of the listing, and that page is within the
      page count. */
  lemma ItemOnItsPage<T>(s: seq<T>, limit: int, page: int, pos: int)
    requires limit >= 1 && page >= 1 && 0 <= pos < limit
    requires (page - 1) * limit + pos < |s|
    ensures pos < |PageSlice(s, page, limit)|
    ensures PageSlice(s, page, limit)[pos] == s[(page - 1) * limit + pos]
    ensures page <= Calculate(page, limit, |s|).totalPages
  {
    var n := Calculate(page, limit, |s|).totalPages;
    if n < page {
      MulMonotone(limit, n, page - 1);
      assert false;
    }
  }
}
