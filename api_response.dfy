/**
 * The response envelope every endpoint returns, and its four builders.
 * The clock is the `now` parameter: the ISO-8601 timestamp read when the
 * response is built.
 */
module ApiResponse {
  import opened Wrappers
  import opened Json
  import opened AppErrors
  import opened HttpErrors

  datatype Pagination = Pagination(page: int, limit: int, total: int, totalPages: int)

  datatype Meta = Meta(timestamp: string, requestId: Option<string>, pagination: Option<Pagination>)

  /** Caller-supplied meta fields (`Partial<ResponseMeta>`): each may be absent. */
  datatype MetaPatch = MetaPatch(
    timestamp: Option<string> := None,
    requestId: Option<string> := None,
    pagination: Option<Pagination> := None)

  /** The `error` member of a failed envelope. */
  datatype ErrorInfo = ErrorInfo(code: ErrorCode, details: Value)

  datatype Body = Body(success: bool, data: Value, message: string, error: Option<ErrorInfo>, meta: Meta)

  /** A JSON response: HTTP status and envelope. */
  datatype Response = Response(status: int, body: Body)

  /** The envelope invariant: `success` holds exactly when `error` is null. */
  predicate Consistent(r: Response)
  {
    r.body.success <==> r.body.error.None?
  }

  /**
   * Meta for a response built at time `now`: the timestamp comes first and
   * every field the caller supplies is spread over it, so a supplied
   * timestamp overrides the clock.
   */
  function BuildMeta(now: string, extra: MetaPatch := MetaPatch()): (m: Meta)
    ensures extra.timestamp.None? ==> m.timestamp == now
    ensures extra.timestamp.Some? ==> m.timestamp == extra.timestamp.value
    ensures m.requestId == extra.requestId && m.pagination == extra.pagination
  {
    Meta(if extra.timestamp.Some? then extra.timestamp.value else now, extra.requestId, extra.pagination)
  }

  /** 200 with `data`; the message defaults to "Success". */
  function Success(now: string, data: Value, message: string := "Success", meta: MetaPatch := MetaPatch()): (r: Response)
    ensures r.status == 200 && Consistent(r)
    ensures r.body.success && r.body.error.None?
    ensures r.body.data == data && r.body.message == message
    ensures r.body.meta == BuildMeta(now, meta)
  {
    Response(200, Body(true, data, message, None, BuildMeta(now, meta)))
  }

  /** 201 with `data`; the message defaults to "Resource created successfully". */
  function Created(now: string, data: Value, message: string := "Resource created successfully"): (r: Response)
    ensures r.status == 201 && Consistent(r)
    ensures r.body.success && r.body.error.None?
    ensures r.body.data == data && r.body.message == message
    ensures r.body.meta == Meta(now, None, None)
  {
    Response(201, Body(true, data, message, None, BuildMeta(now)))
  }

  /**
   * The error envelope. An `AppError` supplies status, message, code and
   * details; anything else (an `Error`, `undefined`, any value) falls back
   * to the generic internal-server error.
   */
  function Error(now: string, err: Caught, requestId: Option<string> := None): (r: Response)
    ensures Consistent(r) && !r.body.success && r.body.data == Null
    ensures r.body.meta == Meta(now, requestId, None)
    ensures err.AnAppError? ==>
      && r.status == err.err.statusCode
      && r.body.message == err.err.message
      && r.body.error == Some(ErrorInfo(err.err.code, err.err.details))
    ensures !err.AnAppError? ==>
      && r.status == 500
      && r.body.message == DefaultInternalMessage
      && r.body.error == Some(ErrorInfo(InternalServerError, Undefined))
  {
    var e := if err.AnAppError? then err.err else InternalServer();
    Response(e.statusCode, Body(false, Null, e.message, Some(ErrorInfo(e.code, e.details)), BuildMeta(now, MetaPatch(requestId := requestId))))
  }

  /** `Math.ceil(total / limit)` for a positive limit. */
  function CeilDiv(total: int, limit: int): (k: int)
    requires limit > 0
  {
    -((-total) / limit)
  }

  /** `k` is the ceiling of `total / limit`: the least `k` with `total <= k * limit`. */
  predicate IsCeiling(k: int, total: int, limit: int)
  {
    (k - 1) * limit < total <= k * limit
  }

  lemma CeilDivIsCeiling(total: int, limit: int)
    requires limit > 0
    ensures IsCeiling(CeilDiv(total, limit), total, limit)
  {
  }

  /** There is only one ceiling. */
  lemma CeilingUnique(a: int, b: int, total: int, limit: int)
    requires limit > 0 && IsCeiling(a, total, limit) && IsCeiling(b, total, limit)
    ensures a == b
  {
  }

  /**
   * 200 with a page of `items` and pagination meta. The source divides by
   * `limit`, so `limit` must be positive.
   */
  function Paginated(now: string, items: seq<Value>, total: int, page: int, limit: int): (r: Response)
    requires limit > 0
    ensures r.status == 200 && Consistent(r)
    ensures r.body.success && r.body.data == Arr(items) && r.body.message == "Success"
    ensures r.body.meta.timestamp == now && r.body.meta.requestId.None?
    ensures r.body.meta.pagination.Some?
    ensures var p := r.body.meta.pagination.value;
      p.page == page && p.limit == limit && p.total == total && IsCeiling(p.totalPages, total, limit)
  {
    var totalPages := CeilDiv(total, limit);
    CeilDivIsCeiling(total, limit);
    Response(200, Body(true, Arr(items), "Success", None, BuildMeta(now, MetaPatch(pagination := Some(Pagination(page, limit, total, totalPages))))))
  }

  /** 55 items in pages of 20, page 2: three pages. */
  lemma PaginatedExample(now: string)
    ensures Paginated(now, [], 55, 2, 20).body.meta.pagination == Some(Pagination(2, 20, 55, 3))
  {
    var p := Paginated(now, [], 55, 2, 20).body.meta.pagination.value;
    assert IsCeiling(3, 55, 20);
    CeilingUnique(p.totalPages, 3, 55, 20);
  }

  /** An error made by a factory is reported with its code and that code's canonical status. */
  lemma FactoryErrorStatus(now: string, c: ErrorCode, text: string, requestId: Option<string>)
    ensures var r := Error(now, AnAppError(Make(c, text)), requestId);
      r.status == CanonicalStatus(c) && r.body.error.Some? && r.body.error.value.code == c
  {
  }

  /**
   * The statuses the response constructor accepts with a JSON body:
   * 200..599, except the bodiless 204, 205 and 304.
   */
  predicate SendableStatus(s: int)
  {
    200 <= s <= 599 && s != 204 && s != 205 && s != 304
  }

  /** Every factory's status is one the response constructor accepts, so `error()` never throws on it. */
  lemma FactoryStatusSendable(c: ErrorCode)
    ensures SendableStatus(CanonicalStatus(c))
    ensures 400 <= CanonicalStatus(c) <= 599
  {
  }

  /**
   * The status comes from the error record, not from its code: a record
   * built directly with a status outside the table is sent with that
   * status, so a failed envelope can go out as 200.
   */
  lemma StatusFollowsRecordNotCode(now: string)
    ensures var r := Error(now, AnAppError(AppError("x", ErrorCode.NotFound, 200)));
      r.status == 200 && !r.body.success
  {
  }
}
