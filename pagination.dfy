/** `paginate`: the window of a listing that one page shows, and the page
    count the listing handlers report. Query values arrive as integers;
    `None` is an absent parameter. */
module Pagination {
  import opened Text

  datatype Window = Window(skip: int, take: int, currentPage: int, pageSize: int)

  const DefaultPage := 1
  const DefaultLimit := 10

  function Max(a: int, b: int): int
  {
    if a >= b then a else b
  }

  /** `paginate({page = 1, limit = 10})`. */
  function Paginate(page: Option<int>, limit: Option<int>): (r: Window)
    ensures r.currentPage >= 1 && r.pageSize >= 1
    ensures r.take == r.pageSize
    ensures r.skip >= 0
    ensures page.Some? && page.value >= 1 ==> r.currentPage == page.value
    ensures limit.Some? && limit.value >= 1 ==> r.pageSize == limit.value
  {
    var currentPage := Max(1, if page.Some? then page.value else DefaultPage);
    var pageSize := Max(1, if limit.Some? then limit.value else DefaultLimit);
    Window((currentPage - 1) * pageSize, pageSize, currentPage, pageSize)
  }

  /** Without parameters the first ten items are shown. */
  lemma DefaultWindow()
    ensures Paginate(None, None) == Window(0, 10, 1, 10)
  {
  }

  /** A page or limit below 1 behaves like 1. */
  lemma ClampedBelow(page: int, limit: Option<int>)
    requires page <= 0
    ensures Paginate(Some(page), limit) == Paginate(Some(1), limit)
  {
  }

  lemma LimitClampedBelow(page: Option<int>, limit: int)
    requires limit <= 0
    ensures Paginate(page, Some(limit)) == Paginate(page, Some(1))
  {
  }

  /** The window of page p holds exactly the items i with i / pageSize + 1 == p:
      every page is a whole block of `pageSize` items, and skip is a multiple
      of take. */
  lemma {:induction false} WindowIsPageBlock(page: Option<int>, limit: Option<int>, i: int)
    requires i >= 0
    ensures var r := Paginate(page, limit);
            && r.skip % r.take == 0
            && (r.skip <= i < r.skip + r.take <==> i / r.pageSize + 1 == r.currentPage)
  {
    var r := Paginate(page, limit);
    BlockIndex(r.currentPage - 1, r.pageSize, i);
  }

  /** For k ≥ 0 and n ≥ 1, i lies in [k·n, k·n + n) exactly when i / n == k. */
  lemma BlockIndex(k: nat, n: int, i: int)
    requires n >= 1 && i >= 0
    ensures (k * n) % n == 0
    ensures k * n <= i < k * n + n <==> i / n == k
  {
    DivUnique(k * n, n, k, 0);
    if k * n <= i < k * n + n {
      DivUnique(i, n, k, i - k * n);
    }
    if i / n == k {
      assert i == k * n + i % n;
    }
  }

  /** Euclidean division is determined by quotient and remainder. */
  lemma DivUnique(a: int, n: int, q: int, r: int)
    requires n >= 1 && a == q * n + r && 0 <= r < n
    ensures a / n == q && a % n == r
  {
    var q', r' := a / n, a % n;
    assert a == q' * n + r' && 0 <= r' < n;
    assert (q - q') * n == r' - r;
    assert -n < (q - q') * n < n;
    SmallMultiple(q - q', n);
  }

  /** The only multiple of n strictly between -n and n is 0. */
  lemma SmallMultiple(d: int, n: int)
    requires n >= 1 && -n < d * n < n
    ensures d == 0
  {
    if d >= 1 {
      MulMonotone(1, d, n);
    } else if d <= -1 {
      MulMonotone(d, -1, n);
    }
  }

  lemma MulMonotone(a: int, b: int, n: int)
    requires a <= b && n >= 1
    ensures a * n <= b * n
  {
    assert b * n - a * n == (b - a) * n;
  }

  /** Strictly smaller multiples of the same positive n have smaller factors. */
  lemma MulCancelLess(a: int, b: int, n: int)
    requires n >= 1 && a * n < b * n
    ensures a < b
  {
    assert (b - a) * n == b * n - a * n;
  }

  /** Consecutive pages tile the listing: page p + 1 starts where page p ends. */
  lemma PagesTile(p: int, limit: Option<int>)
    requires p >= 1
    ensures Paginate(Some(p + 1), limit).skip == Paginate(Some(p), limit).skip + Paginate(Some(p), limit).take
  {
    var n := Paginate(Some(p), limit).pageSize;
    assert p * n == (p - 1) * n + n;
  }

  /** `Math.ceil(totalItems / pageSize)`: the least number of pages of
      `pageSize` items that hold `totalItems` items. */
  function TotalPages(totalItems: nat, pageSize: int): (n: nat)
    requires pageSize >= 1
    ensures n * pageSize >= totalItems
    ensures n == 0 || (n - 1) * pageSize < totalItems
  {
    var n := (totalItems + pageSize - 1) / pageSize;
    assert n * pageSize + (totalItems + pageSize - 1) % pageSize == totalItems + pageSize - 1;
    assert n > 0 ==> (n - 1) * pageSize == n * pageSize - pageSize;
    n
  }

  /** The page count is the least n whose pages hold every item. */
  lemma TotalPagesLeast(totalItems: nat, pageSize: int, m: nat)
    requires pageSize >= 1 && m * pageSize >= totalItems
    ensures TotalPages(totalItems, pageSize) <= m
  {
    var n := TotalPages(totalItems, pageSize);
    if n > 0 {
      MulCancelLess(n - 1, m, pageSize);
    }
  }

  /** Every item of a listing falls on one of the counted pages. */
  lemma ItemsOnCountedPages(totalItems: nat, pageSize: int, i: nat)
    requires pageSize >= 1 && i < totalItems
    ensures i / pageSize + 1 <= TotalPages(totalItems, pageSize)
  {
    var n := TotalPages(totalItems, pageSize);
    var q := i / pageSize;
    assert i == q * pageSize + i % pageSize;
    MulCancelLess(q, n, pageSize);
  }
}
