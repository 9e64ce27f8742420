/**
 * The offset pagination shared by the order, order-history and product
 * listings: 1-based pages, `skip = (page - 1) * pageSize`, `take = pageSize`,
 * and `totalPages = ceil(total / pageSize)`.
 */
module Paging {
  import opened Entities

  const DefaultPage: int := 1
  const DefaultPageSize: int := 20

  /** Number of rows before the first row of the page. */
  function Skip(page: int, pageSize: int): int
  {
    (page - 1) * pageSize
  }

  /** The least number of pages of `pageSize` rows that hold `total` rows. */
  function TotalPages(total: nat, pageSize: int): (pages: nat)
    requires pageSize >= 1
    ensures pages * pageSize >= total
    ensures pages == 0 || (pages - 1) * pageSize < total
  {
    var pages := (total + pageSize - 1) / pageSize;
    var rest := (total + pageSize - 1) % pageSize;
    assert total + pageSize - 1 == pages * pageSize + rest && 0 <= rest < pageSize;
    assert pages * pageSize - pageSize == (pages - 1) * pageSize;
    pages
  }

  /** A page parameter read with `||`: absent or zero falls back to the default. */
  function OrDefault(v: Option<int>, default: int): int
  {
    if v.Some? && v.value != 0 then v.value else default
  }

  function Min(a: int, b: int): int
  {
    if a <= b then a else b
  }

  /** The rows the store returns for `skip` and `take`: at most `take` rows from offset `skip`. */
  function Window<T>(rows: seq<T>, skip: nat, take: nat): (w: seq<T>)
    ensures |w| == if skip >= |rows| then 0 else Min(take, |rows| - skip)
    ensures forall k :: 0 <= k < |w| ==> skip + k < |rows| && w[k] == rows[skip + k]
  {
    if skip >= |rows| then [] else rows[skip .. Min(skip + take, |rows|)]
  }

  /** One page of an id listing, with `skip = (page - 1) * pageSize` and `take = pageSize`. */
  function PageOf(rows: seq<Id>, page: int, pageSize: int): (p: Page)
    requires page >= 1 && pageSize >= 1
    ensures p.total == |rows| && p.page == page && p.pageSize == pageSize
    ensures p.totalPages * pageSize >= p.total && (p.totalPages == 0 || (p.totalPages - 1) * pageSize < p.total)
    ensures |p.data| <= pageSize
    ensures forall k :: 0 <= k < |p.data| ==> Skip(page, pageSize) + k < |rows| && p.data[k] == rows[Skip(page, pageSize) + k]
    ensures p.data != [] <==> page <= p.totalPages
  {
    PageHoldsRowsIff(|rows|, page, pageSize);
    Page(Window(rows, Skip(page, pageSize), pageSize), |rows|, page, pageSize, TotalPages(|rows|, pageSize))
  }

  /** A page (counted from 1) holds rows exactly when its number is at most the page count. */
  lemma PageHoldsRowsIff(total: nat, page: int, pageSize: int)
    requires page >= 1 && pageSize >= 1
    ensures Skip(page, pageSize) < total <==> page <= TotalPages(total, pageSize)
  {
    var n := TotalPages(total, pageSize);
    if page <= n {
      assert (page - 1) * pageSize <= (n - 1) * pageSize by {
        MultiplyMonotone(page - 1, n - 1, pageSize);
      }
    } else {
      assert n * pageSize <= (page - 1) * pageSize by {
        MultiplyMonotone(n, page - 1, pageSize);
      }
    }
  }

  lemma MultiplyMonotone(a: int, b: int, c: int)
    requires a <= b && c >= 0
    ensures a * c <= b * c
  {
  }

  /** Row `i` of a listing is on page `i / pageSize + 1`, at offset `i % pageSize`. */
  lemma RowOnItsPage<T>(rows: seq<T>, i: nat, pageSize: int)
    requires i < |rows| && pageSize >= 1
    ensures Skip(i / pageSize + 1, pageSize) + i % pageSize == i
    ensures var w := Window(rows, Skip(i / pageSize + 1, pageSize), pageSize);
      i % pageSize < |w| && w[i % pageSize] == rows[i]
  {
    var q, r := i / pageSize, i % pageSize;
    assert i == q * pageSize + r;
    assert Skip(q + 1, pageSize) == q * pageSize;
  }
}
