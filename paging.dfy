/**
 * Client-side pagination as the list screens compute it: a 1-based current page,
 * a fixed page size, `Math.ceil(n / size)` pages and the visible slice
 * `list.slice((page - 1) * size, page * size)`.
 */
module Paging {

  function Max(a: int, b: int): int { if a < b then b else a }
  function Min(a: int, b: int): int { if a < b then a else b }

  /** `Math.ceil(n / size)`: the fewest pages of `size` rows that hold `n` rows. */
  function TotalPages(n: nat, size: nat): (r: nat)
    requires size > 0
    ensures r * size >= n
    ensures r > 0 ==> (r - 1) * size < n
    ensures r == 0 <==> n == 0
  {
    var q := (n + size - 1) / size;
    assert q * size + (n + size - 1) % size == n + size - 1;
    q
  }

  /** Offset of the first row of page `page` (`(page - 1) * size`). */
  function StartIndex(page: nat, size: nat): nat
    requires page >= 1
  {
    (page - 1) * size
  }

  /**
   * `xs.slice((page - 1) * size, page * size)`. JavaScript's slice clamps both ends
   * to the length, so a page past the end is empty.
   */
  function Page<T>(xs: seq<T>, page: nat, size: nat): (r: seq<T>)
    requires page >= 1
    ensures |r| <= size
    ensures r != [] ==> StartIndex(page, size) + |r| <= |xs|
    ensures StartIndex(page, size) >= |xs| ==> r == []
    ensures StartIndex(page, size) < |xs| ==> |r| == Min(size, |xs| - StartIndex(page, size))
    ensures forall i :: 0 <= i < |r| ==> r[i] == xs[StartIndex(page, size) + i]
  {
    var first := StartIndex(page, size);
    // page * size == first + size
    var last := first + size;
    xs[Min(first, |xs|)..Min(last, |xs|)]
  }

  /**
   * `r` is page `page` of `xs`: the slice `[(page - 1) * size, page * size)` clamped to the
   * list, so a full page before the end, the remaining rows on the last page, and nothing
   * past the end.
   */
  ghost predicate IsPage<T>(r: seq<T>, xs: seq<T>, page: nat, size: nat)
    requires page >= 1
  {
    (StartIndex(page, size) >= |xs| ==> r == []) &&
    (StartIndex(page, size) < |xs| ==> |r| == Min(size, |xs| - StartIndex(page, size))) &&
    (forall i :: 0 <= i < |r| ==> StartIndex(page, size) + i < |xs| && r[i] == xs[StartIndex(page, size) + i])
  }

  /** `Page` computes exactly that slice. */
  lemma PageIsPage<T>(xs: seq<T>, page: nat, size: nat)
    requires page >= 1
    ensures IsPage(Page(xs, page, size), xs, page, size)
  {
  }

  /** A page in range `1..max(1, TotalPages)` of a non-empty list always shows at least one row. */
  lemma PageInRangeNonEmpty<T>(xs: seq<T>, page: nat, size: nat)
    requires size > 0
    requires 1 <= page <= Max(1, TotalPages(|xs|, size))
    ensures xs != [] ==> |Page(xs, page, size)| > 0
  {
    if xs != [] {
      assert (page - 1) * size <= (TotalPages(|xs|, size) - 1) * size;
    }
  }

  /** A page past `TotalPages` is empty. */
  lemma PageBeyondEmpty<T>(xs: seq<T>, page: nat, size: nat)
    requires size > 0
    requires page > TotalPages(|xs|, size)
    ensures Page(xs, page, size) == []
  {
    var t := TotalPages(|xs|, size);
    assert (page - 1) * size >= t * size;
  }

  /** Flattening a sequence of pages, first page first. */
  function Concat<T>(pages: seq<seq<T>>): seq<T> {
    if pages == [] then [] else Concat(pages[..|pages| - 1]) + pages[|pages| - 1]
  }

  /** Pages `1..m` in order. */
  function FirstPages<T>(xs: seq<T>, size: nat, m: nat): (r: seq<seq<T>>)
    ensures |r| == m
  {
    if m == 0 then [] else FirstPages(xs, size, m - 1) + [Page(xs, m, size)]
  }

  /** Pages `1..TotalPages` in order. */
  function AllPages<T>(xs: seq<T>, size: nat): (r: seq<seq<T>>)
    requires size > 0
    ensures |r| == TotalPages(|xs|, size)
  {
    FirstPages(xs, size, TotalPages(|xs|, size))
  }

  /** Concatenating the first `m` pages gives the first `m * size` rows. */
  lemma {:induction false} ConcatFirstPages<T>(xs: seq<T>, size: nat, m: nat)
    ensures Concat(FirstPages(xs, size, m)) == xs[..Min(m * size, |xs|)]
  {
    if m > 0 {
      var pages := FirstPages(xs, size, m);
      ConcatFirstPages(xs, size, m - 1);
      assert pages[..m - 1] == FirstPages(xs, size, m - 1);
      var p := Page(xs, m, size);
      var first := (m - 1) * size;
      assert m * size == first + size;
      if first >= |xs| {
        assert Concat(pages) == Concat(FirstPages(xs, size, m - 1)) + [];
      } else {
        assert |p| == Min(size, |xs| - first);
        assert xs[..Min(m * size, |xs|)] == xs[..first] + p;
      }
    }
  }

  /** Concatenating all pages reconstructs the list exactly. */
  lemma ConcatAllPages<T>(xs: seq<T>, size: nat)
    requires size > 0
    ensures Concat(AllPages(xs, size)) == xs
  {
    var t := TotalPages(|xs|, size);
    ConcatFirstPages(xs, size, t);
    assert xs[..Min(t * size, |xs|)] == xs;
  }

  /** Multiplying by a positive page size preserves strict order. */
  lemma MulCancelLess(a: int, b: int, size: nat)
    requires size > 0 && a * size < b * size
    ensures a < b
  {
    assert (b - a) * size == b * size - a * size;
  }

  /** Multiplying by a page size preserves order. */
  lemma MulMonotone(a: int, b: int, size: nat)
    requires a <= b
    ensures a * size <= b * size
  {
    assert b * size - a * size == (b - a) * size;
  }

  /** Page `p` ends at or past the last row exactly when `p` is the last page or later. */
  lemma {:induction false} EndsPastLast(p: nat, n: nat, size: nat)
    requires size > 0
    ensures p * size >= n <==> p >= TotalPages(n, size)
  {
    var t := TotalPages(n, size);
    if p >= t {
      MulMonotone(t, p, size);
    } else {
      MulMonotone(p, t - 1, size);
    }
  }

  /** Every row of the list shows up on exactly the page its position says. */
  lemma RowOnPage<T>(xs: seq<T>, j: nat, size: nat)
    requires size > 0 && j < |xs|
    ensures 1 <= j / size + 1 <= TotalPages(|xs|, size)
    ensures StartIndex(j / size + 1, size) == j - j % size
    ensures j % size < |Page(xs, j / size + 1, size)|
    ensures Page(xs, j / size + 1, size)[j % size] == xs[j]
  {
    var t := TotalPages(|xs|, size);
    var q, r := j / size, j % size;
    assert j == q * size + r;
    MulCancelLess(q, t, size);
    assert StartIndex(q + 1, size) == q * size;
  }

  /** The "Previous" handler: step back unless already on page 1. */
  function Prev(page: nat): (r: nat)
    ensures page > 1 ==> r + 1 == page
    ensures page <= 1 ==> r == page
    ensures r <= page
  {
    if page > 1 then page - 1 else page
  }

  /** The "Next" handler: step forward unless already on the last page. */
  function Next(page: nat, totalPages: nat): (r: nat)
    ensures page < totalPages ==> r == page + 1 && r <= totalPages
    ensures page >= totalPages ==> r == page
    ensures r >= page
  {
    if page < totalPages then page + 1 else page
  }

  /** Both handlers keep `1 <= page <= max(1, totalPages)`. */
  lemma NavigationKeepsRange(page: nat, totalPages: nat)
    requires 1 <= page <= Max(1, totalPages)
    ensures 1 <= Prev(page) <= Max(1, totalPages)
    ensures 1 <= Next(page, totalPages) <= Max(1, totalPages)
  {
  }

  /** Both handlers move by at most one page and are no-ops at their ends. */
  lemma NavigationSteps(page: nat, totalPages: nat)
    ensures Prev(page) == page <==> page <= 1
    ensures Prev(page) != page ==> Prev(page) + 1 == page
    ensures Next(page, totalPages) == page <==> page >= totalPages
    ensures Next(page, totalPages) != page ==> Next(page, totalPages) == page + 1
  {
  }

  /** The 1-based row number shown beside row `index` of page `page`. */
  function RowNumber(page: nat, size: nat, index: nat): (r: nat)
    requires page >= 1
    ensures r >= 1
  {
    StartIndex(page, size) + index + 1
  }

  /** The row number of a visible row is that row's 1-based position in the whole list. */
  lemma RowNumberIsPosition<T>(r: seq<T>, xs: seq<T>, page: nat, size: nat, index: nat)
    requires page >= 1 && IsPage(r, xs, page, size) && index < |r|
    ensures RowNumber(page, size, index) <= |xs|
    ensures xs[RowNumber(page, size, index) - 1] == r[index]
  {
  }
}
