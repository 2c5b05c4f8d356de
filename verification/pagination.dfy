/**
 * The pagination helpers: clamping the `page` and `limit` query values, the number of
 * rows to skip, and the page count with its next/previous flags.
 */
module Pagination {
  import opened Common

  datatype PaginationParams = PaginationParams(page: int, limit: int)

  datatype PaginationMeta = PaginationMeta(
    page: int,
    limit: int,
    total: int,
    totalPages: int,
    hasNext: bool,
    hasPrev: bool)

  datatype Paginated<T> = Paginated(data: seq<T>, pagination: PaginationMeta)

  const DEFAULT_PAGE: int := 1
  const DEFAULT_LIMIT: int := 20
  const MAX_LIMIT: int := 100

  /** `Number(v) || d`: a missing or non-numeric value (NaN) and zero both give `d`. */
  function NumberOr(v: Option<int>, d: int): (r: int)
    ensures (v.None? || v.value == 0) ==> r == d
    ensures v.Some? && v.value != 0 ==> r == v.value
  {
    if v.Some? && v.value != 0 then v.value else d
  }

  function Max(a: int, b: int): int { if a < b then b else a }

  function Min(a: int, b: int): int { if a < b then a else b }

  /**
   * `page` is at least 1 and defaults to 1; `limit` lies in 1..100 and defaults to 20.
   * The query values are taken as integers (a fractional `Number(...)` is not modelled).
   */
  function GetPaginationParams(page: Option<int>, limit: Option<int>): (r: PaginationParams)
    ensures r.page >= 1
    ensures 1 <= r.limit <= MAX_LIMIT
    ensures page.None? || page.value <= 1 ==> r.page == DEFAULT_PAGE
    ensures page.Some? && page.value >= 1 ==> r.page == page.value
    ensures limit.None? || limit.value == 0 ==> r.limit == DEFAULT_LIMIT
    ensures limit.Some? && 1 <= limit.value <= MAX_LIMIT ==> r.limit == limit.value
    ensures limit.Some? && limit.value > MAX_LIMIT ==> r.limit == MAX_LIMIT
    ensures limit.Some? && limit.value < 0 ==> r.limit == 1
  {
    PaginationParams(Max(1, NumberOr(page, DEFAULT_PAGE)), Min(MAX_LIMIT, Max(1, NumberOr(limit, DEFAULT_LIMIT))))
  }

  /** The number of rows before `page`. */
  function GetSkip(page: int, limit: int): (skip: int)
    ensures page >= 1 && limit >= 0 ==> skip >= 0
    ensures page == 1 ==> skip == 0
  {
    (page - 1) * limit
  }

  /** Consecutive pages tile the rows: page `p + 1` starts where page `p` ends. */
  lemma {:induction false} PagesTile(page: int, limit: int)
    ensures GetSkip(page + 1, limit) == GetSkip(page, limit) + limit
  {
    calc {
      GetSkip(page + 1, limit);
      page * limit;
      { assert page * limit == (page - 1) * limit + limit; }
      GetSkip(page, limit) + limit;
    }
  }

  /** `Math.ceil(total / limit)` for an integer count and a positive limit. */
  function TotalPages(total: nat, limit: int): (pages: nat)
    requires limit >= 1
    ensures total == 0 ==> pages == 0
    ensures total > 0 ==> (pages - 1) * limit < total <= pages * limit
  {
    var q := (total + limit - 1) / limit;
    CeilingBounds(total, limit, q);
    q
  }

  lemma CeilingBounds(total: nat, limit: int, q: int)
    requires limit >= 1
    requires q == (total + limit - 1) / limit
    ensures q >= 0
    ensures total == 0 ==> q == 0
    ensures (q - 1) * limit < total <= q * limit || total == 0
  {
    var n := total + limit - 1;
    assert n == q * limit + n % limit && 0 <= n % limit < limit;
    assert q * limit <= n < q * limit + limit;
    if total == 0 {
      assert 0 <= n < limit;
      assert q == 0;
    } else {
      assert (q - 1) * limit == q * limit - limit;
    }
  }

  /** The ceiling is unique: any count of pages with the ceiling property is `TotalPages`. */
  lemma {:induction false} TotalPagesUnique(total: nat, limit: int, pages: int)
    requires limit >= 1 && total > 0
    requires (pages - 1) * limit < total <= pages * limit
    ensures pages == TotalPages(total, limit)
  {
    var t: int := TotalPages(total, limit);
    if pages < t {
      assert pages <= t - 1;
      MulMonotone(pages, t - 1, limit);
      assert false;
    } else if pages > t {
      assert t <= pages - 1;
      MulMonotone(t, pages - 1, limit);
      assert false;
    }
  }

  lemma MulMonotone(a: int, b: int, c: int)
    requires a <= b && c >= 0
    ensures a * c <= b * c
  {
    assert b * c - a * c == (b - a) * c;
  }

  function CreatePaginationMeta(total: nat, page: int, limit: int): (meta: PaginationMeta)
    requires limit >= 1
    ensures meta.page == page && meta.limit == limit && meta.total == total
    ensures meta.totalPages == TotalPages(total, limit)
    ensures meta.hasNext <==> page < meta.totalPages
    ensures meta.hasPrev <==> page > 1
  {
    var totalPages := TotalPages(total, limit);
    PaginationMeta(page, limit, total, totalPages, page < totalPages, page > 1)
  }

  /**
   * The flags speak about rows: there is a next page exactly when some row lies past
   * the end of this one, and a previous page exactly when this page skips some rows.
   */
  lemma {:induction false} FlagsMatchRows(total: nat, page: int, limit: int)
    requires limit >= 1
    ensures CreatePaginationMeta(total, page, limit).hasNext <==> GetSkip(page, limit) + limit < total
    ensures CreatePaginationMeta(total, page, limit).hasPrev <==> GetSkip(page, limit) > 0
  {
    var t: int := TotalPages(total, limit);
    PagesTile(page, limit);
    assert GetSkip(page, limit) + limit == page * limit;
    if page < t {
      MulMonotone(page, t - 1, limit);
      assert page * limit < total;
    } else {
      MulMonotone(t, page, limit);
      assert total <= page * limit;
    }
    if page > 1 {
      MulMonotone(1, page - 1, limit);
    } else {
      MulMonotone(page - 1, 0, limit);
    }
  }

  /** The rows are passed through untouched, next to the metadata for them. */
  function CreatePaginatedResponse<T>(data: seq<T>, total: nat, page: int, limit: int): (r: Paginated<T>)
    requires limit >= 1
    ensures r.data == data
    ensures r.pagination.page == page && r.pagination.limit == limit && r.pagination.total == total
    ensures r.pagination == CreatePaginationMeta(total, page, limit)
  {
    Paginated(data, CreatePaginationMeta(total, page, limit))
  }
}
