/** A page of results: the items, the request that produced them and a
    total, with the derived page count and navigation flags. */
module Page {
  import opened Pageable

  datatype Page<T> = Page(items: seq<T>, pageable: Pageable, total: nat)

  /** `page` and `size` are read from the request. */
  function PageNumber<T>(p: Page<T>): (r: int)
    ensures r == p.pageable.page
  {
    p.pageable.page
  }

  function Size<T>(p: Page<T>): (r: int)
    ensures r == p.pageable.size
  {
    p.pageable.size
  }

  /** `total_pages`: 0 for a size of 0, else `(total + size - 1) // size`
      (both operands non-negative here, so floor and Dafny division agree). */
  function TotalPages<T>(p: Page<T>): (r: int)
    requires p.pageable.size >= 0
    ensures r >= 0
  {
    if Size(p) == 0 then 0 else (p.total + Size(p) - 1) / Size(p)
  }

  /** `has_next`. */
  predicate HasNext<T>(p: Page<T>)
    requires p.pageable.size >= 0
  {
    PageNumber(p) < TotalPages(p)
  }

  /** `has_prev`. */
  predicate HasPrev<T>(p: Page<T>) {
    PageNumber(p) > 1
  }

  /** The page count is the ceiling of total / size: the smallest number of
      pages of `size` items that holds `total` items. */
  lemma TotalPagesIsCeiling<T>(p: Page<T>)
    requires p.pageable.size >= 1
    ensures var n, s := TotalPages(p), p.pageable.size;
      n * s >= p.total && (n == 0 || (n - 1) * s < p.total)
  {
    var s := p.pageable.size;
    var q := (p.total + s - 1) / s;
    var m := (p.total + s - 1) % s;
    assert p.total + s - 1 == q * s + m && 0 <= m < s;
    assert q * s >= p.total;
    if q > 0 {
      assert (q - 1) * s == q * s - s;
    }
  }

  /** There is a next page exactly when the items before the next page do
      not already cover the total. */
  lemma HasNextIffMoreItems<T>(p: Page<T>)
    requires Valid(p.pageable)
    ensures HasNext(p) <==> p.pageable.page * p.pageable.size < p.total
  {
    var n, s, k := TotalPages(p), p.pageable.size, p.pageable.page;
    TotalPagesIsCeiling(p);
    if k < n {
      MulMonotone(k, n - 1, s);
      assert (n - 1) * s < p.total;
    } else {
      MulMonotone(n, k, s);
      assert n * s >= p.total;
    }
  }

  lemma MulMonotone(a: int, b: int, s: int)
    requires a <= b && s >= 0
    ensures a * s <= b * s
  {
    assert b * s - a * s == (b - a) * s;
  }

  /** With no items there is one page at most to look at and no next page;
      every page but the first has a previous one. */
  lemma EmptyHasNoNext<T>(p: Page<T>)
    requires Valid(p.pageable) && p.total == 0
    ensures TotalPages(p) == 0 && !HasNext(p)
    ensures HasPrev(p) <==> p.pageable.page != 1
  {
    var s := p.pageable.size;
    assert (s - 1) / s == 0;
  }
}
