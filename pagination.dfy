/**
 * In-memory pagination (lib/utils/pagination.ts): `getPaginationData` cuts one page
 * out of a list and `getPageNumbers` chooses the window of page links to show.
 */
module Pagination {

  datatype PaginationData<T> = PaginationData(
    items: seq<T>,
    total: nat,
    page: int,
    pageSize: int,
    totalPages: nat,
    hasNextPage: bool,
    hasPreviousPage: bool)

  function Max(a: int, b: int): int { if a >= b then a else b }
  function Min(a: int, b: int): int { if a <= b then a else b }

  /**
   * Offset of the first item of 1-based page `page`, `(page - 1) * pageSize`, written as
   * repeated addition (PageStartIsProduct ties the two together).
   */
  function PageStart(page: int, pageSize: nat): nat
    decreases page
  {
    if page <= 1 then 0 else PageStart(page - 1, pageSize) + pageSize
  }

  lemma {:induction false} PageStartIsProduct(page: int, pageSize: nat)
    requires page >= 1
    ensures PageStart(page, pageSize) == (page - 1) * pageSize
    decreases page
  {
    if page > 1 {
      PageStartIsProduct(page - 1, pageSize);
      assert (page - 1) * pageSize == (page - 2) * pageSize + pageSize;
    }
  }

  /** Later pages start at least one page further on. */
  lemma {:induction false} PageStartGap(a: int, b: int, pageSize: nat)
    requires a >= 1
    ensures a < b ==> PageStart(a, pageSize) + pageSize <= PageStart(b, pageSize)
    ensures a <= b ==> PageStart(a, pageSize) <= PageStart(b, pageSize)
    decreases b - a
  {
    if a < b {
      PageStartGap(a, b - 1, pageSize);
    }
  }

  /**
   * `Math.ceil(n / d)` for a positive divisor, as the number of d-sized pages needed to hold n
   * items (CeilDivBounds and CeilDivIsCeiling state that it is the ceiling).
   */
  function CeilDiv(n: nat, d: int): nat
    requires d > 0
    decreases n
  {
    if n == 0 then 0 else 1 + CeilDiv(if n <= d then 0 else n - d, d)
  }

  /** The last page starts inside the list and the page after it starts at or beyond its end. */
  lemma {:induction false} CeilDivBounds(n: nat, d: int)
    requires d > 0
    ensures CeilDiv(n, d) == 0 <==> n == 0
    ensures n > 0 ==> PageStart(CeilDiv(n, d), d) < n
    ensures PageStart(CeilDiv(n, d) + 1, d) >= n
    decreases n
  {
    if n > d {
      CeilDivBounds(n - d, d);
    }
  }

  /** The same bounds with the products written out: `q = ceil(n / d)` is the least q with `q * d >= n`. */
  lemma CeilDivIsCeiling(n: nat, d: int)
    requires d > 0
    ensures var q := CeilDiv(n, d);
            q * d >= n && (n > 0 ==> (q - 1) * d < n)
  {
    var q := CeilDiv(n, d);
    CeilDivBounds(n, d);
    PageStartIsProduct(q + 1, d);
    if n > 0 {
      PageStartIsProduct(q, d);
    }
  }

  /** `items.slice(start, end)` for non-negative bounds: both bounds are clamped to the length. */
  function Slice<T>(items: seq<T>, start: nat, end: nat): (r: seq<T>)
    ensures |r| <= |items|
    ensures start <= end ==> |r| <= end - start && r == items[Min(start, |items|)..Min(end, |items|)]
    ensures start > end ==> r == []
  {
    var s := Min(start, |items|);
    var e := Min(end, |items|);
    if s <= e then items[s..e] else []
  }

  /** `getPaginationData(items, page, pageSize)`: the page is clamped into `1..totalPages`, and is 1 when there are no items. */
  function GetPaginationData<T>(items: seq<T>, page: int, pageSize: int): (r: PaginationData<T>)
    requires pageSize > 0
    ensures r.total == |items| && r.pageSize == pageSize
    ensures r.totalPages == CeilDiv(|items|, pageSize)
    ensures r.page >= 1 && (r.totalPages > 0 ==> r.page <= r.totalPages)
    ensures 1 <= page <= r.totalPages ==> r.page == page
    ensures page < 1 || r.totalPages == 0 ==> r.page == 1
    ensures page > r.totalPages >= 1 ==> r.page == r.totalPages
    ensures |r.items| <= pageSize
    ensures var start := PageStart(r.page, pageSize);
            start <= |items| ==> r.items == items[start .. Min(start + pageSize, |items|)]
    ensures r.hasNextPage <==> r.page < r.totalPages
    ensures r.hasPreviousPage <==> r.page > 1
  {
    var total := |items|;
    var totalPages := CeilDiv(total, pageSize);
    var currentPage := Max(1, Min(page, totalPages));
    var startIndex := PageStart(currentPage, pageSize);
    var endIndex := startIndex + pageSize;
    var pageItems := Slice(items, startIndex, endIndex);
    PaginationData(pageItems, total, currentPage, pageSize, totalPages,
                   currentPage < totalPages, currentPage > 1)
  }

  /** Every page up to the last starts inside the list. */
  lemma PageStartsInside(n: nat, pageSize: int, page: int)
    requires pageSize > 0 && 1 <= page <= CeilDiv(n, pageSize)
    ensures PageStart(page, pageSize) < n
  {
    CeilDivBounds(n, pageSize);
    PageStartGap(page, CeilDiv(n, pageSize), pageSize);
  }

  /** Pages before the last one are full; the last one is not empty. */
  lemma PageSizes<T>(items: seq<T>, page: int, pageSize: int)
    requires pageSize > 0
    requires 1 <= page <= CeilDiv(|items|, pageSize)
    ensures var r := GetPaginationData(items, page, pageSize);
            (page < r.totalPages ==> |r.items| == pageSize) && |r.items| > 0
  {
    PageStartsInside(|items|, pageSize, page);
    if page < CeilDiv(|items|, pageSize) {
      PageStartsInside(|items|, pageSize, page + 1);
    }
  }

  /** The pages from `page` to the last one, glued together in order. */
  function PagesFrom<T>(items: seq<T>, pageSize: int, page: nat): seq<T>
    requires pageSize > 0 && page >= 1
    decreases CeilDiv(|items|, pageSize) + 1 - page
  {
    if page > CeilDiv(|items|, pageSize) then []
    else GetPaginationData(items, page, pageSize).items + PagesFrom(items, pageSize, page + 1)
  }

  lemma SliceThenRest<T>(items: seq<T>, lo: int, width: int)
    requires 0 <= lo <= |items| && width >= 0
    ensures items[lo..Min(lo + width, |items|)] + items[Min(lo + width, |items|)..] == items[lo..]
  {
  }

  lemma {:induction false} PagesFromSuffix<T>(items: seq<T>, pageSize: int, page: nat)
    requires pageSize > 0 && 1 <= page <= CeilDiv(|items|, pageSize) + 1
    ensures PagesFrom(items, pageSize, page) == items[Min(PageStart(page, pageSize), |items|)..]
    decreases CeilDiv(|items|, pageSize) + 1 - page
  {
    if page <= CeilDiv(|items|, pageSize) {
      PageStartsInside(|items|, pageSize, page);
      PagesFromSuffix(items, pageSize, page + 1);
      SliceThenRest(items, PageStart(page, pageSize), pageSize);
    } else {
      CeilDivBounds(|items|, pageSize);
    }
  }

  /** Every item lies on exactly one page, in its original order: the pages 1..totalPages, concatenated, are the input. */
  lemma PagesPartitionItems<T>(items: seq<T>, pageSize: int)
    requires pageSize > 0
    ensures PagesFrom(items, pageSize, 1) == items
  {
    PagesFromSuffix(items, pageSize, 1);
  }

  /** Position `j` of page `q` holds item `(q - 1) * pageSize + j`, and the page has exactly the positions that exist. */
  lemma PageItemAt<T>(items: seq<T>, pageSize: int, q: int, j: nat)
    requires pageSize > 0
    requires 1 <= q <= CeilDiv(|items|, pageSize)
    ensures var r := GetPaginationData(items, q, pageSize);
            j < |r.items| <==> (j < pageSize && (q - 1) * pageSize + j < |items|)
    ensures var r := GetPaginationData(items, q, pageSize);
            j < |r.items| ==> r.items[j] == items[(q - 1) * pageSize + j]
  {
    PageStartsInside(|items|, pageSize, q);
    PageStartIsProduct(q, pageSize);
  }

  /** Item `i` is on page `i / pageSize + 1`, at position `i % pageSize` of that page. */
  lemma ItemOnPage<T>(items: seq<T>, pageSize: int, i: nat)
    requires pageSize > 0 && i < |items|
    ensures 1 <= i / pageSize + 1 <= CeilDiv(|items|, pageSize)
    ensures var r := GetPaginationData(items, i / pageSize + 1, pageSize);
            i % pageSize < |r.items| && r.items[i % pageSize] == items[i]
  {
    var n := CeilDiv(|items|, pageSize);
    var p := i / pageSize + 1;
    var m := i % pageSize;
    assert PageStart(p, pageSize) + m == i by {
      PageStartIsProduct(p, pageSize);
    }
    CeilDivBounds(|items|, pageSize);
    PageStartGap(n + 1, p, pageSize);
    PageItemAt(items, pageSize, p, m);
    PageStartIsProduct(p, pageSize);
  }

  /** A position on a page names one item only: positions (q, j) and (q', j') with j, j' < pageSize hold the same index only if they are equal. */
  lemma PositionsDistinct(pageSize: int, q: int, j: nat, q': int, j': nat)
    requires pageSize > 0 && q >= 1 && q' >= 1 && j < pageSize && j' < pageSize
    requires PageStart(q, pageSize) + j == PageStart(q', pageSize) + j'
    ensures q == q' && j == j'
  {
    PageStartGap(q, q', pageSize);
    PageStartGap(q', q, pageSize);
  }

  /** `[start, start + 1, ..., start + len - 1]`, as `Array.from({ length: len }, (_, i) => start + i)` builds it. */
  function Range(start: int, len: nat): (r: seq<int>)
    ensures |r| == len && forall i :: 0 <= i < len ==> r[i] == start + i
  {
    seq(len, i requires 0 <= i < len => start + i)
  }

  /**
   * `getPageNumbers(currentPage, totalPages, maxVisible)`: every page when they fit,
   * otherwise a window of exactly `maxVisible` consecutive pages inside `1..totalPages`
   * that holds the current page.
   */
  function GetPageNumbers(currentPage: int, totalPages: int, maxVisible: int): (r: seq<int>)
    ensures totalPages <= maxVisible ==> r == Range(1, Max(0, totalPages))
    ensures totalPages > maxVisible >= 1 ==>
              |r| == maxVisible && 1 <= r[0] && r[|r| - 1] <= totalPages
              && (forall i :: 0 <= i < |r| ==> r[i] == r[0] + i)
    ensures totalPages > maxVisible >= 1 && 1 <= currentPage <= totalPages ==> currentPage in r
  {
    if totalPages <= maxVisible then Range(1, Max(0, totalPages))
    else
      var half := maxVisible / 2;
      var start0 := Max(1, currentPage - half);
      var end := Min(totalPages, start0 + maxVisible - 1);
      var start := if end - start0 + 1 < maxVisible then Max(1, end - maxVisible + 1) else start0;
      var r := Range(start, Max(0, end - start + 1));
      assert 1 <= currentPage <= totalPages && maxVisible >= 1 ==> r[currentPage - start] == currentPage;
      r
  }

  /** The default of five links: with ten pages and the current page 1, the links are 1..5; on page 10 they are 6..10. */
  lemma PageNumbersExamples()
    ensures GetPageNumbers(1, 10, 5) == [1, 2, 3, 4, 5]
    ensures GetPageNumbers(10, 10, 5) == [6, 7, 8, 9, 10]
    ensures GetPageNumbers(5, 10, 5) == [3, 4, 5, 6, 7]
  {
  }
}
