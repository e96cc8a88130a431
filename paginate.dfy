/**
 * The pagination middleware and the paginated-response helper, in both of
 * the repository's variants: the typed one clamps the page to at least 1
 * and the limit to 1..100, the plain one takes the query values as they
 * come. A query value is None when it is absent or empty, and Some(n) when
 * it is the decimal text of n. The middlewares read it through `Number`,
 * under which 0 is falsy and takes the default; the response helper gets
 * the raw text, which is truthy even when it reads "0", so there only an
 * absent or empty value takes the default.
 */
module Paginate {
  import opened Common

  const DEFAULT_PAGE: int := 1
  const DEFAULT_LIMIT: int := 10
  const MAX_LIMIT: int := 100

  /** `req.pagination` as the typed middleware sets it. */
  datatype Pagination = Pagination(page: int, limit: int, offset: int)

  /** `req.pagination` as the plain middleware sets it: no page entry. */
  datatype Window = Window(limit: int, offset: int)

  /** The typed middleware's arithmetic. A falsy value (absent, NaN, 0)
      takes the default; a negative page becomes 1, a negative limit 1, a
      limit above 100 becomes 100. */
  function Paginate(page: Option<int>, limit: Option<int>): (p: Pagination)
    ensures p.page >= 1 && 1 <= p.limit <= MAX_LIMIT
    ensures p.offset == (p.page - 1) * p.limit && p.offset >= 0
    ensures page.Some? && page.value >= 1 ==> p.page == page.value
    ensures (page.None? || page.value < 1) ==> p.page == DEFAULT_PAGE
    ensures limit.Some? && 1 <= limit.value <= MAX_LIMIT ==> p.limit == limit.value
    ensures limit.Some? && limit.value > MAX_LIMIT ==> p.limit == MAX_LIMIT
    ensures limit.Some? && limit.value < 0 ==> p.limit == 1
    ensures (limit.None? || limit.value == 0) ==> p.limit == DEFAULT_LIMIT
  {
    var pg := Max(1, NumOr(page, DEFAULT_PAGE));
    var lim := Min(MAX_LIMIT, Max(1, NumOr(limit, DEFAULT_LIMIT)));
    Pagination(pg, lim, (pg - 1) * lim)
  }

  /** The plain middleware's arithmetic: defaults for falsy values, no
      clamping at all. */
  function PaginateJs(page: Option<int>, limit: Option<int>): (w: Window)
    ensures w.limit != 0
    ensures w.offset == (NumOr(page, DEFAULT_PAGE) - 1) * w.limit
    ensures limit.Some? && limit.value != 0 ==> w.limit == limit.value
    ensures (limit.None? || limit.value == 0) ==> w.limit == DEFAULT_LIMIT
  {
    var pg := NumOr(page, DEFAULT_PAGE);
    var lim := NumOr(limit, DEFAULT_LIMIT);
    Window(lim, (pg - 1) * lim)
  }

  /** On well-formed input (page at least 1 or absent, limit within 1..100
      or absent) the two middlewares compute the same window. */
  lemma MiddlewaresAgreeInRange(page: Option<int>, limit: Option<int>)
    requires page.None? || page.value >= 1
    requires limit.None? || 1 <= limit.value <= MAX_LIMIT
    ensures PaginateJs(page, limit) == Window(Paginate(page, limit).limit, Paginate(page, limit).offset)
  {
  }

  /** Outside that range the plain middleware yields a negative offset:
      page 0 is falsy and becomes 1, but page -1 goes through. */
  lemma PlainOffsetCanBeNegative()
    ensures PaginateJs(Some(-1), None).offset < 0
    ensures Paginate(Some(-1), None).offset == 0
  {
  }

  /** The request object the middleware writes to, and how many times it
      handed control on. */
  class Request {
    /** `req.pagination` as the typed middleware writes it. */
    var pagination: Option<Pagination>
    /** `req.pagination` as the plain middleware writes it. */
    var window: Option<Window>
    var nextCalls: nat

    constructor ()
      ensures pagination == None && window == None && nextCalls == 0
    {
      pagination := None;
      window := None;
      nextCalls := 0;
    }
  }

  /** `paginate`: sets `req.pagination`, then calls `next` exactly once. */
  method PaginateMiddleware(req: Request, page: Option<int>, limit: Option<int>)
    modifies req
    ensures req.pagination == Some(Paginate(page, limit)) && req.window == old(req.window)
    ensures req.nextCalls == old(req.nextCalls) + 1
  {
    req.pagination := Some(Paginate(page, limit));
    req.nextCalls := req.nextCalls + 1;
  }

  /** The plain `paginate`: sets the window, then calls `next` exactly once. */
  method PaginateMiddlewareJs(req: Request, page: Option<int>, limit: Option<int>)
    modifies req
    ensures req.window == Some(PaginateJs(page, limit)) && req.pagination == old(req.pagination)
    ensures req.nextCalls == old(req.nextCalls) + 1
  {
    req.window := Some(PaginateJs(page, limit));
    req.nextCalls := req.nextCalls + 1;
  }

  // -----------------------------------------------------------------------
  // The paginated response

  /** `Math.ceil(a / b)` for a non-zero divisor. */
  function CeilDiv(a: int, b: int): (q: int)
    requires b != 0
    ensures b > 0 ==> (q - 1) * b < a <= q * b
    ensures b < 0 ==> q * b <= a < (q - 1) * b
  {
    if b > 0 then -((-a) / b) else -(a / (-b))
  }

  /** A JavaScript number as the page arithmetic can produce it: a
      division by a zero limit gives Infinity, or NaN when the total is 0
      as well (both are written as `null` in the JSON body). */
  datatype JsNum = Finite(v: int) | PosInf | NaN

  /** `Math.ceil(total / limit)`. */
  function TotalPages(count: nat, limit: int): (t: JsNum)
    ensures limit > 0 ==> t.Finite? && (t.v - 1) * limit < count <= t.v * limit
    ensures limit < 0 ==> t.Finite? && t.v * limit <= count < (t.v - 1) * limit && t.v <= 0
    ensures limit == 0 ==> (t == PosInf <==> count > 0) && (t == NaN <==> count == 0)
  {
    if limit != 0 then Finite(CeilDiv(count, limit))
    else if count > 0 then PosInf else NaN
  }

  /** `a < b` for a number `b` that may be Infinity or NaN. */
  predicate LessThan(a: int, b: JsNum)
  {
    match b
    case Finite(v) => a < v
    case PosInf => true
    case NaN => false
  }

  datatype PageInfo = PageInfo(
    total: int, page: int, limit: int, totalPages: JsNum,
    hasNextPage: bool, hasPreviousPage: bool)

  datatype Paged<T> = Paged(data: seq<T>, pagination: PageInfo)

  /** The typed `paginatedResponse`. `rows` is None when the caller passed
      no rows. The page and limit are the caller's raw values, with the
      default only for an absent or empty one. */
  function PaginatedResponse<T>(rows: Option<seq<T>>, count: nat, pageNo: Option<int>, limitPerPage: Option<int>): (r: Paged<T>)
    ensures r.data == rows.GetOr([])
    ensures r.pagination.total == count
    ensures r.pagination.page == pageNo.GetOr(DEFAULT_PAGE)
    ensures r.pagination.limit == limitPerPage.GetOr(DEFAULT_LIMIT)
    ensures r.pagination.totalPages == TotalPages(count, r.pagination.limit)
    ensures r.pagination.hasNextPage <==> LessThan(r.pagination.page, r.pagination.totalPages)
    ensures r.pagination.hasPreviousPage <==> r.pagination.page > 1
  {
    var page := pageNo.GetOr(DEFAULT_PAGE);
    var limit := limitPerPage.GetOr(DEFAULT_LIMIT);
    var totalPages := TotalPages(count, limit);
    Paged(rows.GetOr([]), PageInfo(count, page, limit, totalPages, LessThan(page, totalPages), page > 1))
  }

  /** With a positive limit, there is a next page exactly when the rows of
      the pages up to and including this one do not cover the total. */
  lemma HasNextIffRowsRemain<T>(rows: Option<seq<T>>, count: nat, pageNo: Option<int>, limitPerPage: Option<int>)
    requires limitPerPage.GetOr(DEFAULT_LIMIT) > 0
    ensures var info := PaginatedResponse(rows, count, pageNo, limitPerPage).pagination;
            info.hasNextPage <==> info.page * info.limit < count
  {
    var info := PaginatedResponse(rows, count, pageNo, limitPerPage).pagination;
    var p, l, t := info.page, info.limit, info.totalPages.v;
    if p < t {
      MulMonotone(p, t - 1, l);
    } else {
      MulMonotone(t, p, l);
    }
  }

  /** With a limit of 0 every page, whatever its number, announces a next
      page as soon as there is a single row, and none when there is none. */
  lemma ZeroLimitHasNextIffAnyRow<T>(rows: Option<seq<T>>, count: nat, pageNo: Option<int>)
    ensures var info := PaginatedResponse(rows, count, pageNo, Some(0)).pagination;
            info.hasNextPage <==> count > 0
  {
  }

  lemma MulMonotone(a: int, b: int, l: int)
    requires a <= b && l > 0
    ensures a * l <= b * l
  {
    var d := b - a;
    assert d * l >= 0;
    assert b * l == a * l + d * l;
  }

  datatype PageInfoJs = PageInfoJs(total: int, page: int, limit: int, totalPages: JsNum)

  /** The plain `paginatedResponse`: the same page arithmetic, without the
      next/previous flags and without defaulting missing rows. */
  function PaginatedResponseJs<T>(rows: seq<T>, count: nat, pageNo: Option<int>, limitPerPage: Option<int>): (r: (seq<T>, PageInfoJs))
    ensures r.0 == rows
    ensures var typed := PaginatedResponse(Some(rows), count, pageNo, limitPerPage).pagination;
            r.1 == PageInfoJs(typed.total, typed.page, typed.limit, typed.totalPages)
  {
    var page := pageNo.GetOr(DEFAULT_PAGE);
    var limit := limitPerPage.GetOr(DEFAULT_LIMIT);
    (rows, PageInfoJs(count, page, limit, TotalPages(count, limit)))
  }

  /** `LIMIT limit OFFSET offset` over an ordered result. The database
      refuses a negative limit or offset. */
  function Slice<T>(rows: seq<T>, w: Window): (r: Result<seq<T>>)
    ensures r.Err? <==> w.limit < 0 || w.offset < 0
    ensures r.Ok? ==> |r.value| == Max(0, Min(w.limit, |rows| - w.offset))
    ensures r.Ok? ==> forall i :: 0 <= i < |r.value| ==> r.value[i] == rows[w.offset + i]
  {
    if w.limit < 0 || w.offset < 0 then Err(ServerError("Internal server error"))
    else if w.offset >= |rows| then Ok([])
    else Ok(rows[w.offset..Min(|rows|, w.offset + w.limit)])
  }
}
