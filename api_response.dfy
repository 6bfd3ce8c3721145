/**
 * The JSON envelopes of backend/src/api/mod.rs (`ApiResponse`,
 * `PaginationMeta`, `ErrorResponse`) and the pieces of HTTP the handlers and
 * middleware share: status codes, header values and replies.
 */
module Api {
  import opened Wrappers
  import opened Text

  type U32 = x: int | 0 <= x < 0x1_0000_0000
  type U64 = x: int | 0 <= x < 0x1_0000_0000_0000_0000

  /** Status codes used by the handlers and middleware. */
  type StatusCode = x: int | 100 <= x < 600 witness 200
  const Ok200: StatusCode := 200
  const Created201: StatusCode := 201
  const BadRequest400: StatusCode := 400
  const Unauthorized401: StatusCode := 401
  const Forbidden403: StatusCode := 403
  const NotFound404: StatusCode := 404
  const Conflict409: StatusCode := 409
  const UnprocessableEntity422: StatusCode := 422
  const InternalServerError500: StatusCode := 500

  /** A JSON value, objects keeping their key order. */
  datatype Json =
    | JNull
    | JBool(b: bool)
    | JNum(n: int)
    | JStr(s: string)
    | JObj(fields: seq<(string, Json)>)

  datatype PaginationMeta = PaginationMeta(currentPage: U32, pageSize: U32, totalItems: U64, totalPages: U32)

  /** A successful reply envelope; `timestamp` is seconds since the epoch. */
  datatype ApiResponse<T> = ApiResponse(success: bool, message: string, data: T,
                                        pagination: Option<PaginationMeta>, timestamp: int)

  /** A failed reply envelope. */
  datatype ErrorResponse = ErrorResponse(success: bool, message: string, code: string, timestamp: int)

  /** `ApiResponse::success`: no message, no pagination, stamped `now`. */
  function Success<T>(data: T, now: int): (r: ApiResponse<T>)
    ensures r.success && r.message == "" && r.data == data && r.pagination.None? && r.timestamp == now
  {
    ApiResponse(true, "", data, None, now)
  }

  /** `ApiResponse::success_with_message`. */
  function SuccessWithMessage<T>(data: T, message: string, now: int): (r: ApiResponse<T>)
    ensures r.success && r.message == message && r.data == data && r.pagination.None? && r.timestamp == now
  {
    ApiResponse(true, message, data, None, now)
  }

  /** `ApiResponse::with_pagination` sets the pagination and nothing else. */
  function WithPagination<T>(r: ApiResponse<T>, meta: PaginationMeta): (r': ApiResponse<T>)
    ensures r'.pagination == Some(meta)
    ensures r' == r.(pagination := Some(meta))
  {
    r.(pagination := Some(meta))
  }

  /** The keys of a serialized `ApiResponse`: `pagination` is skipped when absent. */
  function ResponseKeys<T>(r: ApiResponse<T>): (keys: seq<string>)
    ensures "pagination" in keys <==> r.pagination.Some?
    ensures forall k :: k in ["success", "message", "data", "timestamp"] ==> k in keys
  {
    ["success", "message", "data"] + (if r.pagination.Some? then ["pagination"] else []) + ["timestamp"]
  }

  /** `ErrorResponse::new`: an unsuccessful envelope with an empty code. */
  function NewError(message: string, now: int): (e: ErrorResponse)
    ensures !e.success && e.message == message && e.code == "" && e.timestamp == now
  {
    ErrorResponse(false, message, "", now)
  }

  /** `ErrorResponse::with_code` replaces the code and keeps everything else. */
  function WithCode(e: ErrorResponse, code: string): (e': ErrorResponse)
    ensures e'.code == code && e'.success == e.success && e'.message == e.message && e'.timestamp == e.timestamp
  {
    e.(code := code)
  }

  /** `ErrorResponse` used directly as a response is always a 500. */
  function ErrorResponseStatus(e: ErrorResponse): (s: StatusCode)
    ensures s == InternalServerError500
  {
    InternalServerError500
  }

  /** Setting a code twice keeps the last one, and a coded error built from
      `new` is determined by its message, code and time alone. */
  lemma WithCodeLastWins(e: ErrorResponse, c1: string, c2: string)
    ensures WithCode(WithCode(e, c1), c2) == WithCode(e, c2)
    ensures WithCode(NewError(e.message, e.timestamp), e.code) == e.(success := false)
  {
  }

  /** The reply body: a success or error envelope, or nothing at all (a bare
      status code). */
  datatype Body = Envelope(response: ApiResponse<Json>) | Failure(error: ErrorResponse) | NoBody

  datatype Reply = Reply(status: StatusCode, body: Body)

  /** A coded error reply. */
  function ErrorReply(status: StatusCode, message: string, code: string, now: int): (r: Reply)
    ensures r.status == status && r.body.Failure? && !r.body.error.success
    ensures r.body.error.message == message && r.body.error.code == code && r.body.error.timestamp == now
  {
    Reply(status, Failure(WithCode(NewError(message, now), code)))
  }

  /** `HeaderValue::to_str`: succeeds only when every byte is visible ASCII
      (32 to 126) or a tab, each byte becoming one character. */
  function HeaderToStr(value: seq<Byte>): (r: Option<string>)
    ensures r.Some? <==> forall i :: 0 <= i < |value| ==> IsHeaderChar(value[i])
    ensures r.Some? ==> |r.value| == |value| && forall i :: 0 <= i < |value| ==> r.value[i] as int == value[i]
  {
    if value == [] then Some([])
    else if !IsHeaderChar(value[0]) then None
    else match HeaderToStr(value[1..])
      case None => None
      case Some(rest) => Some([value[0] as char] + rest)
  }

  predicate IsHeaderChar(b: Byte) {
    (32 <= b < 127) || b == 9
  }

  /** The bytes of an ASCII string, the inverse of `HeaderToStr`. */
  function AsciiBytes(s: string): (b: seq<Byte>)
    requires forall i :: 0 <= i < |s| ==> s[i] as int < 256
    ensures |b| == |s| && forall i :: 0 <= i < |s| ==> b[i] == s[i] as int
  {
    seq(|s|, i requires 0 <= i < |s| => s[i] as int)
  }

  /** A string of header characters survives the trip to bytes and back. */
  lemma HeaderToStrAsciiBytes(s: string)
    requires forall i :: 0 <= i < |s| ==> (32 <= s[i] as int < 127) || s[i] == '\t'
    ensures HeaderToStr(AsciiBytes(s)) == Some(s)
  {
    var r := HeaderToStr(AsciiBytes(s));
    assert r.Some?;
    assert r.value == s;
  }
}
