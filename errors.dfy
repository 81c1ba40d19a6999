/**
 * What one remote call can come back with, how `_request` turns a failed response into a
 * `YNABAPIError` message, and how `format_error` renders every exception a tool catches.
 */
module Errors {
  import opened Wrappers
  import opened PyJson
  import Text

  /** What the network delivers for one request: a response (whose body may not decode), or no response. */
  datatype HttpOutcome =
    | Response(status: int, body: Option<Json>)
    | TimedOut
    | NetworkFailure(reason: string)

  /** The kinds of `YNABAPIError` that `_request` raises; `detail` is the value interpolated into the message. */
  datatype ApiError =
    | Unauthorized
    | PermissionDenied(detail: Json)
    | NotFound(detail: Json)
    | RateLimited
    | OtherStatus(status: int, detail: Json)
    | RequestTimedOut
    | NetworkError(reason: string)

  /** Every exception that reaches a tool's `except Exception` clause. */
  datatype Fault = ApiFault(error: ApiError) | Raised(exception: Exception)

  const NoDetail: Json := JStr("")
  const UnauthorizedMessage: string := "Invalid or expired API token. Please update your token."
  const RateLimitedMessage: string := "Rate limit exceeded. Please wait before making more requests."
  const TimedOutMessage: string := "Request timed out. Please try again."
  /** The text of the `JSONDecodeError` a non-JSON success body raises (its position is not modelled). */
  const UndecodableBodyMessage: string := "Expecting value: line 1 column 1 (char 0)"

  /** `str(YNABAPIError)` for each kind. */
  function Message(e: ApiError): string {
    match e
    case Unauthorized => UnauthorizedMessage
    case PermissionDenied(d) => "Permission denied: " + PyStr(d)
    case NotFound(d) => "Resource not found: " + PyStr(d)
    case RateLimited => RateLimitedMessage
    case OtherStatus(s, d) => "API error " + Text.IntToString(s) + ": " + PyStr(d)
    case RequestTimedOut => TimedOutMessage
    case NetworkError(r) => "Network error: " + r
  }

  /**
   * The best-effort detail of an error response: `error.detail` of a decoded object body that
   * has an `"error"` entry, `""` in every other case (including every case where Python raises).
   */
  function ErrorDetail(body: Option<Json>): (d: Json)
    ensures d != NoDetail ==>
      && body.Some? && body.value.JObj? && "error" in body.value.fields
      && body.value.fields["error"].JObj? && "detail" in body.value.fields["error"].fields
      && d == body.value.fields["error"].fields["detail"]
  {
    if body.Some? && body.value.JObj? && "error" in body.value.fields then
      match Get(body.value.fields["error"], "detail", NoDetail)
      case Success(d) => d
      case Failure(_) => NoDetail
    else NoDetail
  }

  /** A well-formed error body yields its detail. */
  lemma {:induction false} DetailOfErrorBody(others: map<string, Json>, detail: Json, fields: map<string, Json>)
    ensures ErrorDetail(Some(JObj(others["error" := JObj(fields["detail" := detail])]))) == detail
  {
  }

  /** The status-to-error branch of `_request`, for a response that `raise_for_status` rejected. */
  function MapStatus(status: int, body: Option<Json>): (e: ApiError)
    ensures status == 401 <==> e == Unauthorized
    ensures status == 429 <==> e == RateLimited
    ensures status == 403 <==> e.PermissionDenied?
    ensures status == 404 <==> e.NotFound?
    ensures !e.RequestTimedOut? && !e.NetworkError?
    ensures e.PermissionDenied? || e.NotFound? || e.OtherStatus? ==> e.detail == ErrorDetail(body)
    ensures e.OtherStatus? ==> e.status == status
  {
    var detail := ErrorDetail(body);
    if status == 401 then Unauthorized
    else if status == 403 then PermissionDenied(detail)
    else if status == 404 then NotFound(detail)
    else if status == 429 then RateLimited
    else OtherStatus(status, detail)
  }

  /** The status code an error kind stands for. */
  function StatusOf(e: ApiError): Option<int> {
    match e
    case Unauthorized => Some(401)
    case PermissionDenied(_) => Some(403)
    case NotFound(_) => Some(404)
    case RateLimited => Some(429)
    case OtherStatus(s, _) => Some(s)
    case _ => None
  }

  /** The mapping loses neither the status code nor the detail it promises to carry. */
  lemma {:induction false} MapStatusKeepsStatus(status: int, body: Option<Json>)
    ensures StatusOf(MapStatus(status, body)) == Some(status)
  {
  }

  /** The two fixed messages do not depend on the body. */
  lemma {:induction false} FixedMessages(body: Option<Json>)
    ensures Message(MapStatus(401, body)) == UnauthorizedMessage
    ensures Message(MapStatus(429, body)) == RateLimitedMessage
    ensures Message(MapStatus(404, body)) == "Resource not found: " + PyStr(ErrorDetail(body))
  {
  }

  predicate IsSuccessStatus(status: int) {
    200 <= status < 300
  }

  /**
   * `_request` after the response arrived: a 2xx body is returned decoded, any other status is
   * mapped, a timeout and a network failure become their own messages.
   */
  function ResponseResult(o: HttpOutcome): (r: Result<Json, Fault>)
    ensures r.Success? <==> o.Response? && IsSuccessStatus(o.status) && o.body.Some?
    ensures r.Success? ==> r.value == o.body.value
    ensures o.Response? && !IsSuccessStatus(o.status) ==> r == Failure(ApiFault(MapStatus(o.status, o.body)))
    ensures o.TimedOut? ==> r == Failure(ApiFault(RequestTimedOut))
    ensures o.NetworkFailure? ==> r == Failure(ApiFault(NetworkError(o.reason)))
  {
    match o
    case Response(status, body) =>
      if IsSuccessStatus(status) then
        if body.Some? then Success(body.value) else Failure(Raised(JsonDecodeError(UndecodableBodyMessage)))
      else Failure(ApiFault(MapStatus(status, body)))
    case TimedOut => Failure(ApiFault(RequestTimedOut))
    case NetworkFailure(reason) => Failure(ApiFault(NetworkError(reason)))
  }

  const ErrorPrefix: string := "Error: "

  /** `format_error`: the API's own errors print their message, anything else its type and text. */
  function FormatError(f: Fault): (s: string)
    ensures |s| > |ErrorPrefix| && s[..|ErrorPrefix|] == ErrorPrefix
    ensures f.ApiFault? ==> s[|ErrorPrefix|..] == Message(f.error)
  {
    match f
    case ApiFault(e) => ErrorPrefix + Message(e)
    case Raised(x) => ErrorPrefix + "Unexpected error - " + x.Name() + ": " + x.Str()
  }
}
