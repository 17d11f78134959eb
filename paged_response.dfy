/** The paged response of router/response.go: page count and the links to
    the next and the previous page. */
module PagedResponse {
  import opened Wrappers

  /** Below this bound every integer is exact in a float64. */
  const Float64Exact: int := 0x20_0000_0000_0000

  datatype PagedResponse<T> = PagedResponse(
    totalItems: int,
    numOfPages: int,
    currentPage: int,
    pageSize: int,
    prevPage: Option<int>,
    nextPage: Option<int>,
    items: T)

  /** Multiplying by a non-negative number keeps order. */
  lemma MulMono(a: int, b: int, c: int)
    ensures c >= 0 && a <= b ==> a * c <= b * c
  {
    if c >= 0 && a <= b {
      assert b * c - a * c == (b - a) * c;
    }
  }

  /** One more of `a`, `c` times, is `c` more. */
  lemma MulSucc(a: int, c: int)
    ensures (a + 1) * c == a * c + c
    ensures (a - 1) * c == a * c - c
  {
  }

  /** `int64(math.Ceil(float64(count) / float64(pageSize)))`: with both
      operands exact floats the float quotient rounds to the same ceiling as
      the exact quotient, so this is integer ceiling division. */
  function NumOfPages(count: int, pageSize: int): (n: int)
    requires pageSize > 0 && 0 <= count < Float64Exact
    ensures 0 <= n <= count
    ensures n * pageSize >= count
    ensures count > 0 ==> (n - 1) * pageSize < count
    ensures n == 0 <==> count == 0
  {
    var m := count + pageSize - 1;
    var n := m / pageSize;
    var r := m % pageSize;
    assert m == n * pageSize + r && 0 <= r < pageSize;
    MulSucc(n, pageSize);
    MulSucc(count, pageSize);
    MulMono(n, -1, pageSize);
    MulMono(count + 1, n, pageSize);
    MulMono(1, pageSize, count);
    n
  }

  /** `NewPagedResponse` as written: the record holds the arguments and the
      page count; the next link is set before the last page and the previous
      link only on the last page. */
  function NewPagedResponse<T>(items: T, page: int, pageSize: int, count: int): (r: PagedResponse<T>)
    requires pageSize > 0 && 0 <= count < Float64Exact
    ensures r.numOfPages == NumOfPages(count, pageSize)
    ensures r.totalItems == count && r.currentPage == page && r.pageSize == pageSize && r.items == items
  {
    var numOfPages := NumOfPages(count, pageSize);
    PagedResponse(
      count,
      numOfPages,
      page,
      pageSize,
      if page != 1 && page == numOfPages then Some(page - 1) else None,
      if page != numOfPages && page <= numOfPages then Some(page + 1) else None,
      items)
  }

  /** Page `p` (counted from 1) holds at least one of the `count` items. */
  predicate HoldsItems(p: int, pageSize: int, count: int)
  {
    p >= 1 && (p - 1) * pageSize < count
  }

  /** With pages of `pageSize`, `page` is before the last page exactly when
      items lie beyond it, and at the last page exactly when it holds the
      final item. */
  lemma PageCountBounds(page: int, pageSize: int, count: int)
    requires pageSize > 0 && 0 <= count < Float64Exact
    ensures page < NumOfPages(count, pageSize) <==> page * pageSize < count
    ensures page == NumOfPages(count, pageSize) <==> (page - 1) * pageSize < count <= page * pageSize
  {
    var n := NumOfPages(count, pageSize);
    MulSucc(page, pageSize);
    MulSucc(n, pageSize);
    MulMono(page, n - 1, pageSize);
    MulMono(n, page, pageSize);
    MulMono(page + 1, n, pageSize);
    MulMono(n + 1, page, pageSize);
  }

  /** A next page is linked exactly when items remain after the ones this
      page and the pages before it show, and it is the page after. */
  lemma NextPageIff<T>(items: T, page: int, pageSize: int, count: int)
    requires pageSize > 0 && 0 <= count < Float64Exact
    ensures var r := NewPagedResponse(items, page, pageSize, count);
      (r.nextPage.Some? <==> page * pageSize < count) && (r.nextPage.Some? ==> r.nextPage.value == page + 1)
  {
    PageCountBounds(page, pageSize, count);
  }

  /** As written, a previous page is linked exactly when this page holds the
      final item, unless it is page 1; it is the page before. */
  lemma PrevPageIff<T>(items: T, page: int, pageSize: int, count: int)
    requires pageSize > 0 && 0 <= count < Float64Exact
    ensures var r := NewPagedResponse(items, page, pageSize, count);
      && (r.prevPage.Some? <==> page != 1 && (page - 1) * pageSize < count <= page * pageSize)
      && (r.prevPage.Some? ==> r.prevPage.value == page - 1)
  {
    PageCountBounds(page, pageSize, count);
  }

  /** As written, pages strictly between the first and the last have a next
      page and no previous page. */
  lemma MiddlePageHasNoPrev<T>(items: T, page: int, pageSize: int, count: int)
    requires pageSize > 0 && 0 <= count < Float64Exact
    requires 1 < page < NumOfPages(count, pageSize)
    ensures NewPagedResponse(items, page, pageSize, count).prevPage.None?
    ensures NewPagedResponse(items, page, pageSize, count).nextPage == Some(page + 1)
  {
  }

  /** An empty result has no pages and no links for any page from 1 on; page 0
      of an empty result gets a previous page of -1. */
  lemma EmptyResult<T>(items: T, page: int, pageSize: int)
    requires pageSize > 0
    ensures NewPagedResponse(items, page, pageSize, 0).numOfPages == 0
    ensures page >= 1 ==> NewPagedResponse(items, page, pageSize, 0).nextPage.None?
    ensures page >= 1 ==> NewPagedResponse(items, page, pageSize, 0).prevPage.None?
    ensures page == 0 ==> NewPagedResponse(items, page, pageSize, 0).prevPage == Some(-1)
  {
  }

  /** Worked example: 25 items in pages of 10 make 3 pages. */
  lemma ThreePages()
    ensures NumOfPages(25, 10) == 3
    ensures NewPagedResponse(0, 1, 10, 25).nextPage == Some(2) && NewPagedResponse(0, 1, 10, 25).prevPage.None?
    ensures NewPagedResponse(0, 2, 10, 25).nextPage == Some(3) && NewPagedResponse(0, 2, 10, 25).prevPage.None?
    ensures NewPagedResponse(0, 3, 10, 25).nextPage.None? && NewPagedResponse(0, 3, 10, 25).prevPage == Some(2)
  {
  }

  /** The response with the previous link the next link mirrors: every page
      after the first, up to the last, links back to the page before it. */
  function NewPagedResponseLinkingBack<T>(items: T, page: int, pageSize: int, count: int): (r: PagedResponse<T>)
    requires pageSize > 0 && 0 <= count < Float64Exact
    ensures var asWritten := NewPagedResponse(items, page, pageSize, count);
      r == asWritten.(prevPage := r.prevPage)
  {
    var numOfPages := NumOfPages(count, pageSize);
    PagedResponse(
      count,
      numOfPages,
      page,
      pageSize,
      if page != 1 && 1 <= page <= numOfPages then Some(page - 1) else None,
      if page != numOfPages && page <= numOfPages then Some(page + 1) else None,
      items)
  }

  /** With the corrected link, a previous page is linked exactly when both
      it and the current page hold items, and it is the page before. */
  lemma PrevPageHoldsItems<T>(items: T, page: int, pageSize: int, count: int)
    requires pageSize > 0 && 0 <= count < Float64Exact
    ensures var r := NewPagedResponseLinkingBack(items, page, pageSize, count);
      && (r.prevPage.Some? <==> HoldsItems(page - 1, pageSize, count) && HoldsItems(page, pageSize, count))
      && (r.prevPage.Some? ==> r.prevPage.value == page - 1)
  {
    PageCountBounds(page - 1, pageSize, count);
    PageCountBounds(page - 2, pageSize, count);
    MulSucc(page - 2, pageSize);
  }
}
