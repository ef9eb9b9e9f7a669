/**
 * Page arithmetic of the paginated product listing: the defaults for limit and page, the row
 * offset handed to OFFSET, and the page count reported back. `Window` is how the storage engine
 * applies LIMIT and OFFSET to the ordered matching rows; it is used to state what the pages mean.
 */
module Pagination {
  import opened Strconv

  const DefaultLimit: int := 10
  const FirstPage: int := 1

  /** A limit that is not positive falls back to 10. */
  function EffectiveLimit(limit: int): (r: int)
    ensures r >= 1
    ensures limit > 0 ==> r == limit
    ensures limit <= 0 ==> r == DefaultLimit
  {
    if limit <= 0 then DefaultLimit else limit
  }

  /** A page number that is not positive falls back to the first page. */
  function EffectivePage(page: int): (r: int)
    ensures r >= 1
    ensures page > 0 ==> r == page
    ensures page <= 0 ==> r == FirstPage
  {
    if page <= 0 then FirstPage else page
  }

  /** The number of rows skipped before page `page`. */
  function RowOffset(page: int, limit: int): int {
    (page - 1) * limit
  }

  /** The offset of a valid page is a non-negative multiple of the limit, one limit per page. */
  lemma RowOffsetBounds(page: int, limit: int)
    requires page >= 1 && limit >= 1
    ensures RowOffset(page, limit) >= 0
    ensures RowOffset(page, limit) % limit == 0 && RowOffset(page, limit) / limit == page - 1
    ensures RowOffset(page + 1, limit) == RowOffset(page, limit) + limit
  {
    var k := page - 1;
    assert RowOffset(page, limit) == k * limit;
    assert k * limit >= 0 by {
      assert k >= 0;
    }
    assert (k * limit) / limit == k && (k * limit) % limit == 0 by {
      DivMulExact(k, limit);
    }
  }

  lemma DivMulExact(k: nat, limit: int)
    requires limit >= 1
    ensures (k * limit) / limit == k && (k * limit) % limit == 0
  {
    var q, r := (k * limit) / limit, (k * limit) % limit;
    assert k * limit == q * limit + r && 0 <= r < limit;
    assert (k - q) * limit == r;
    MulMono(1, k - q, limit);
    MulMono(1, q - k, limit);
  }

  lemma MulMono(a: int, b: int, c: int)
    ensures a <= b && c >= 0 ==> a * c <= b * c
  {
    if a <= b && c >= 0 {
      assert b * c - a * c == (b - a) * c;
    }
  }

  /** Pages needed for `total` rows, `ceil(total / limit)`, reported as 1 when there are no rows. */
  function TotalPages(total: nat, limit: int): int
    requires limit >= 1
  {
    var pages := (total + limit - 1) / limit;
    if pages == 0 then 1 else pages
  }

  /**
   * `TotalPages` is `max(1, ceil(total / limit))`: the pages hold every row, and the last page
   * is not empty unless there are no rows at all.
   */
  lemma TotalPagesIsCeiling(total: nat, limit: int)
    requires limit >= 1
    ensures TotalPages(total, limit) >= 1
    ensures total <= TotalPages(total, limit) * limit
    ensures total > 0 ==> (TotalPages(total, limit) - 1) * limit < total
    ensures total == 0 ==> TotalPages(total, limit) == 1
  {
    var q, r := (total + limit - 1) / limit, (total + limit - 1) % limit;
    assert total + limit - 1 == q * limit + r && 0 <= r < limit;
    MulMono(1, q, limit);
    MulMono(q, 0, limit);
    if total == 0 {
      assert q == 0;
    } else {
      assert q >= 1;
      assert total <= q * limit;
      assert (q - 1) * limit == q * limit - limit;
    }
  }

  lemma TotalPagesExamples()
    ensures TotalPages(25, 10) == 3
    ensures TotalPages(0, 10) == 1
    ensures TotalPages(10, 10) == 1
    ensures TotalPages(11, 10) == 2
    ensures TotalPages(12, 5) == 3
  {
  }

  function Min(a: int, b: int): int {
    if a <= b then a else b
  }

  /** The rows LIMIT `limit` OFFSET `offset` selects from the ordered matching rows. */
  function Window<T>(rows: seq<T>, limit: nat, offset: nat): (w: seq<T>)
    ensures |w| <= limit
  {
    if offset >= |rows| then [] else rows[offset..Min(offset + limit, |rows|)]
  }

  /** Pages 1 to `n` one after the other. */
  function FirstPages<T>(rows: seq<T>, limit: nat, n: nat): seq<T>
    requires limit >= 1
  {
    if n == 0 then [] else FirstPages(rows, limit, n - 1) + Window(rows, limit, (n - 1) * limit)
  }

  lemma {:induction false} FirstPagesArePrefix<T>(rows: seq<T>, limit: nat, n: nat)
    requires limit >= 1
    ensures FirstPages(rows, limit, n) == rows[..Min(n * limit, |rows|)]
  {
    if n > 0 {
      FirstPagesArePrefix(rows, limit, n - 1);
      var lo := (n - 1) * limit;
      assert n * limit == lo + limit;
      PrefixThenWindow(rows, limit, lo);
    }
  }

  /** The rows before an offset followed by the window at that offset are the longer prefix. */
  lemma PrefixThenWindow<T>(rows: seq<T>, limit: nat, lo: nat)
    ensures rows[..Min(lo, |rows|)] + Window(rows, limit, lo) == rows[..Min(lo + limit, |rows|)]
  {
    if lo < |rows| {
      assert rows[..lo] + rows[lo..Min(lo + limit, |rows|)] == rows[..Min(lo + limit, |rows|)];
    }
  }

  /**
   * Every matching row is on exactly one of the pages 1 to `TotalPages`, in order: reading
   * those pages one after another gives back all the rows, and the page after the last is empty.
   */
  lemma PagesCoverAllRows<T>(rows: seq<T>, limit: nat)
    requires limit >= 1
    ensures FirstPages(rows, limit, TotalPages(|rows|, limit)) == rows
    ensures Window(rows, limit, RowOffset(TotalPages(|rows|, limit) + 1, limit)) == []
  {
    var n := TotalPages(|rows|, limit);
    TotalPagesIsCeiling(|rows|, limit);
    FirstPagesArePrefix(rows, limit, n);
    assert Min(n * limit, |rows|) == |rows|;
    assert RowOffset(n + 1, limit) == n * limit;
  }

  /**
   * The listing scenario: twelve matching rows, five per page, second page: rows 6 to 10
   * (indices 5 to 9), and three pages in all.
   */
  lemma SecondPageOfTwelve<T>(rows: seq<T>)
    requires |rows| == 12
    ensures Window(rows, 5, RowOffset(2, 5)) == rows[5..10]
    ensures |Window(rows, 5, RowOffset(2, 5))| == 5
    ensures TotalPages(|rows|, 5) == 3
  {
  }

  // ---------------------------------------------------------------------------------------------
  // The page count as the 64-bit Go code computes it

  /** `(total + limit - 1) / limit` in Go `int` arithmetic: the sum wraps, the division truncates. */
  function TotalPagesInt64(total: nat, limit: int): int
    requires 1 <= limit <= MaxInt64 && total <= MaxInt64
  {
    var pages := TruncDiv(Wrap64(total + limit - 1), limit);
    if pages == 0 then 1 else pages
  }

  /** Without overflow the 64-bit computation is the page count. */
  lemma TotalPagesInt64Agrees(total: nat, limit: int)
    requires 1 <= limit <= MaxInt64 && total <= MaxInt64
    requires total + limit - 1 <= MaxInt64
    ensures TotalPagesInt64(total, limit) == TotalPages(total, limit)
  {
  }

  /**
   * A limit near the top of the 64-bit range makes the sum wrap to a negative number: two
   * matching rows and `limit = 9223372036854775807` report -1 pages instead of 1.
   */
  lemma TotalPagesInt64Overflows()
    ensures TotalPagesInt64(2, MaxInt64) == -1
    ensures TotalPages(2, MaxInt64) == 1
  {
    assert Wrap64(2 + MaxInt64 - 1) == MinInt64;
    assert TruncDiv(MinInt64, MaxInt64) == -1;
  }

  /** `(page - 1) * limit` in Go `int` arithmetic: the product wraps. */
  function RowOffsetInt64(page: int, limit: int): int
    requires 1 <= page <= MaxInt64 && 1 <= limit <= MaxInt64
  {
    Wrap64((page - 1) * limit)
  }

  /** Without overflow the 64-bit computation is the row offset. */
  lemma RowOffsetInt64Agrees(page: int, limit: int)
    requires 1 <= page <= MaxInt64 && 1 <= limit <= MaxInt64
    requires RowOffset(page, limit) <= MaxInt64
    ensures RowOffsetInt64(page, limit) == RowOffset(page, limit)
  {
    RowOffsetBounds(page, limit);
  }

  /**
   * A page number the request accepts as a positive 64-bit integer can make the product wrap:
   * page 4611686018427387905 with two rows per page gives the offset -9223372036854775808,
   * which the storage engine refuses, instead of 9223372036854775808.
   */
  lemma RowOffsetInt64Overflows()
    ensures RowOffsetInt64(4611686018427387905, 2) == MinInt64 < 0
    ensures RowOffset(4611686018427387905, 2) == -MinInt64
  {
    assert Wrap64(-MinInt64) == MinInt64;
  }
}
