/** Cutting a list into pages. */
module Paginate {

  /** A JavaScript number as a page count. */
  datatype Count = Finite(n: int) | Infinite | NotANumber

  /** `Math.floor(count / perPage) + (count % perPage > 0 ? 1 : 0)`. */
  function CountPages(count: nat, perPage: int): Count {
    if perPage == 0 then (if count == 0 then NotANumber else Infinite)
    else Finite(Floor(count, perPage) + (if count % perPage > 0 then 1 else 0))
  }

  /** The floor of the exact quotient; `/` rounds so that the remainder is not negative. */
  function Floor(a: int, b: int): (q: int)
    requires b != 0
    ensures if b > 0 then b * q <= a < b * (q + 1) else b * (q + 1) < a <= b * q
  {
    if b > 0 || a % b == 0 then a / b else a / b - 1
  }

  /** Where a slice bound falls: counted from the end when negative, and cut off at both ends. */
  function Bound(length: nat, n: int): (r: nat)
    ensures r <= length
  {
    if n < 0 then (if length + n < 0 then 0 else length + n) else if n <= length then n else length
  }

  function Skip<T>(source: seq<T>, n: int): seq<T> {
    source[Bound(|source|, n)..]
  }

  function Take<T>(source: seq<T>, n: int): seq<T> {
    source[..Bound(|source|, n)]
  }

  datatype Page<T> = Page(items: seq<T>, page: int, perPage: int, totalCount: nat, totalPages: Count)

  function PaginateArray<T>(source: seq<T>, page: int, perPage: int): Page<T> {
    Page(Take(Skip(source, (page - 1) * perPage), perPage), page, perPage, |source|, CountPages(|source|, perPage))
  }

  /** The rows a query returns for an offset and a limit. */
  function Rows<T>(source: seq<T>, offset: nat, limit: nat): seq<T> {
    if offset >= |source| then []
    else if offset + limit >= |source| then source[offset..]
    else source[offset..offset + limit]
  }

  /** The least number of pages that holds everything. */
  lemma PagesHoldAll(count: nat, perPage: int)
    requires perPage > 0
    ensures CountPages(count, perPage).Finite?
    ensures var n := CountPages(count, perPage).n; n >= 0 && perPage * (n - 1) < count <= perPage * n
  {
    var q, r := count / perPage, count % perPage;
    assert count == perPage * q + r;
    assert perPage * (q + 1) == perPage * q + perPage;
  }

  /** From page 1 on, a page of the array is the page of the query. */
  lemma PageIsQueryPage<T>(source: seq<T>, page: int, perPage: int)
    requires perPage > 0 && page >= 1
    ensures perPage * (page - 1) >= 0
    ensures PaginateArray(source, page, perPage).items == Rows(source, perPage * (page - 1), perPage)
  {
    assert (page - 1) * perPage == perPage * (page - 1) >= 0;
  }

  lemma Monotone(d: int, j: int, k: int)
    requires d > 0
    ensures j <= k ==> d * j <= d * k
    ensures k < j ==> d * k + d <= d * j
  {
    if k < j {
      assert d * (k + 1) <= d * j;
    }
  }

  lemma Offset(perPage: int, page: int)
    ensures perPage * page == perPage * (page - 1) + perPage
  {
  }

  /** Beyond the last page there is nothing; before the first one the count runs from the end. */
  lemma PageEmptyIff<T>(source: seq<T>, page: int, perPage: int)
    requires perPage > 0
    ensures PaginateArray(source, page, perPage).items == [] <==>
            source == [] || page > CountPages(|source|, perPage).n
  {
    var n := CountPages(|source|, perPage).n;
    PagesHoldAll(|source|, perPage);
    Offset(perPage, n);
    Monotone(perPage, n, page - 1);
    if page >= 1 {
      PageIsQueryPage(source, page, perPage);
    } else {
      Monotone(perPage, page - 1, -1);
      EarlyPage(source, (page - 1) * perPage, perPage);
    }
  }

  lemma EarlyPage<T>(source: seq<T>, n: int, perPage: int)
    requires n < 0 < perPage
    ensures Take(Skip(source, n), perPage) == [] <==> source == []
  {
    assert |Skip(source, n)| > 0 <==> source != [];
  }

  /** Pages 1 to `n`, one after the other. */
  function Pages<T>(source: seq<T>, perPage: int, n: nat): seq<T> {
    if n == 0 then [] else Pages(source, perPage, n - 1) + PaginateArray(source, n, perPage).items
  }

  lemma {:induction false} PagesArePrefix<T>(source: seq<T>, perPage: int, n: nat)
    requires perPage > 0
    ensures perPage * n >= 0
    ensures Pages(source, perPage, n) == Take(source, perPage * n)
  {
    if n > 0 {
      PagesArePrefix(source, perPage, n - 1);
      PageIsQueryPage(source, n, perPage);
      assert perPage * n == perPage * (n - 1) + perPage;
    }
  }

  /** The pages are a partition of the source, in order. */
  lemma PagesConcatenate<T>(source: seq<T>, perPage: int)
    requires perPage > 0
    ensures var n := CountPages(|source|, perPage).n; n >= 0 && Pages(source, perPage, n) == source
  {
    var n := CountPages(|source|, perPage).n;
    PagesHoldAll(|source|, perPage);
    PagesArePrefix(source, perPage, n);
  }

  /** All pages but the last are full; the last holds the rest and is never empty. */
  lemma PageSizes<T>(source: seq<T>, page: int, perPage: int)
    requires perPage > 0 && 1 <= page <= CountPages(|source|, perPage).n
    ensures var size, n := |PaginateArray(source, page, perPage).items|, CountPages(|source|, perPage).n;
            if page < n then size == perPage else size == |source| - perPage * (n - 1) && 0 < size <= perPage
  {
    var n := CountPages(|source|, perPage).n;
    PagesHoldAll(|source|, perPage);
    PageIsQueryPage(source, page, perPage);
    Offset(perPage, n);
    Monotone(perPage, n - 1, page - 1);
    RowCount(source, perPage * (page - 1), perPage);
  }

  lemma RowCount<T>(source: seq<T>, offset: nat, limit: nat)
    ensures |Rows(source, offset, limit)|
         == if offset >= |source| then 0 else if offset + limit >= |source| then |source| - offset else limit
  {
  }

  /** Every element is on one page only: the one its index says. */
  lemma ElementPage<T>(source: seq<T>, i: nat, page: int, perPage: int)
    requires perPage > 0 && page >= 1 && i < |source|
    ensures perPage * (page - 1) <= i < perPage * (page - 1) + |PaginateArray(source, page, perPage).items| <==>
            page == i / perPage + 1
    ensures i % perPage < |PaginateArray(source, i / perPage + 1, perPage).items|
    ensures PaginateArray(source, i / perPage + 1, perPage).items[i % perPage] == source[i]
  {
    var q := i / perPage;
    assert i == perPage * q + i % perPage;
    PageIsQueryPage(source, page, perPage);
    PageIsQueryPage(source, q + 1, perPage);
    Monotone(perPage, page - 1, q);
    Monotone(perPage, q, page - 1);
  }

  /** A page number below 1 wraps around: page 0 is the tail of the list, not an error and not empty. */
  lemma PageZeroIsTail<T>(source: seq<T>, perPage: int)
    requires perPage > 0
    ensures PaginateArray(source, 0, perPage).items == source[if |source| < perPage then 0 else |source| - perPage..]
  {
  }

  /** Before page 1 the same holds further up: page `-k` is the page that ends `k` pages from the end. */
  lemma EarlyPageWraps<T>(source: seq<T>, page: int, perPage: int)
    requires perPage > 0 && page < 1
    ensures var from := |source| - perPage * (1 - page);
            var start := if from < 0 then 0 else from;
            var end := if start + perPage > |source| then |source| else start + perPage;
            PaginateArray(source, page, perPage).items == source[start..end]
  {
    Monotone(perPage, 1, 1 - page);
    assert (page - 1) * perPage == -(perPage * (1 - page));
  }

  lemma NegativeSize(count: nat, size: int)
    requires size > 0
    ensures CountPages(count, -size) == Finite(-(count / size))
  {
    assert count / -size == -(count / size);
    assert count % -size == count % size;
  }

  /** What a page says of itself: what was asked for, the size of the whole source, and its page count;
      pages of no elements are infinitely many, and for an empty source not a number. */
  lemma PageDescribes<T>(source: seq<T>, page: int, perPage: int)
    ensures var p := PaginateArray(source, page, perPage);
            && p.page == page && p.perPage == perPage && p.totalCount == |source|
            && (p.totalPages.Infinite? <==> perPage == 0 && source != [])
            && (p.totalPages.NotANumber? <==> perPage == 0 && source == [])
            && (perPage > 0 ==> perPage * (p.totalPages.n - 1) < |source| <= perPage * p.totalPages.n)
            && (perPage < 0 ==> p.totalPages.n == -(|source| / -perPage))
            && (perPage == 0 ==> p.items == [])
  {
    if perPage > 0 {
      PagesHoldAll(|source|, perPage);
    } else if perPage < 0 {
      NegativeSize(|source|, -perPage);
    }
  }
}
