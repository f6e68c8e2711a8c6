/**
 * Validation of the three metrics query models. The shared base model
 * strips surrounding whitespace from strings, each field is checked in
 * declaration order with its errors collected, and the model-level range
 * check runs only once every field is valid. The "no future datetime"
 * check compares with a timezone-aware clock reading, so a naive datetime
 * makes the comparison raise TypeError, which aborts validation.
 */
module MetricRequests {
  import opened Common

  /** A datetime value: the instant (or, for a naive value, the wall-clock
      reading) in microseconds, and whether it carries a timezone. */
  datatype DateTime = DateTime(t: Timestamp, aware: bool)

  const MaxRouteLength: nat := 255
  const MinLimit: int := 1
  const MaxLimit: int := 1000
  const MinStatusCode: int := 100
  const MaxStatusCode: int := 599

  /** Why a field or the model was refused. */
  datatype Problem =
    | TooSmall(min: int)
    | TooLarge(max: int)
    | TooLong(maxLength: nat)
    | NoLeadingSlash
    | FutureDatetime
    | BadRange(message: string)

  /** One entry of the validation error; `field` is "" for the model-level check. */
  datatype FieldError = FieldError(field: string, problem: Problem)

  datatype Validated<T> =
    | Accepted(request: T)
    | Rejected(errors: seq<FieldError>)
    /** "can't compare offset-naive and offset-aware datetimes" */
    | NaiveComparison

  datatype GlobalMetricRequest = GlobalMetricRequest(
    startTime: Option<DateTime>, endTime: Option<DateTime>, limit: int, offset: int, newestFirst: bool)

  datatype RouteMetricsRequest = RouteMetricsRequest(
    route: Option<string>, start: Option<DateTime>, end: Option<DateTime>, limit: int,
    cursor: Option<DateTime>)

  datatype RouteStatusCodeMetricsRequest = RouteStatusCodeMetricsRequest(
    route: Option<string>, statusCode: Option<int>, startTime: Option<DateTime>,
    endTime: Option<DateTime>, limit: int, offset: int, newestFirst: bool)

  /** The whitespace the base model strips (Unicode White_Space). */
  predicate StripChar(c: char) {
    c == ' ' || ('\t' <= c <= '\r') || c == '\U{85}' || c == '\U{a0}' || c == '\U{1680}'
    || ('\U{2000}' <= c <= '\U{200a}') || c == '\U{2028}' || c == '\U{2029}'
    || c == '\U{202f}' || c == '\U{205f}' || c == '\U{3000}'
  }

  predicate Naive(v: Option<DateTime>) { v.Some? && !v.value.aware }

  /** `prevent_future_dates`, for a value that is not naive. */
  function FutureError(field: string, v: Option<DateTime>, now: Timestamp): seq<FieldError> {
    if v.Some? && v.value.t > now then [FieldError(field, FutureDatetime)] else []
  }

  /** `ge=lo` / `le=hi`: the first bound that fails, if any. */
  function BoundsError(field: string, n: int, lo: int, hi: Option<int>): seq<FieldError> {
    if n < lo then [FieldError(field, TooSmall(lo))]
    else if hi.Some? && n > hi.value then [FieldError(field, TooLarge(hi.value))]
    else []
  }

  /** `max_length=255, pattern=r"^/.*"` on the stripped route: length is checked first. */
  function RouteError(field: string, route: Option<string>): seq<FieldError> {
    if route.None? then []
    else
      var r := Strip(route.value, StripChar);
      if |r| > MaxRouteLength then [FieldError(field, TooLong(MaxRouteLength))]
      else if r == [] || r[0] != '/' then [FieldError(field, NoLeadingSlash)]
      else []
  }

  function StripRoute(route: Option<string>): Option<string> {
    if route.None? then None else Some(Strip(route.value, StripChar))
  }

  predicate NotFuture(v: Option<DateTime>, now: Timestamp) { v.None? || v.value.t <= now }

  predicate RouteAcceptable(route: Option<string>) {
    route.None? ||
      var r := Strip(route.value, StripChar);
      |r| <= MaxRouteLength && r != [] && r[0] == '/'
  }

  /** Both given and in the wrong order. */
  predicate Inverted(a: Option<DateTime>, b: Option<DateTime>) {
    a.Some? && b.Some? && a.value.t > b.value.t
  }

  // ---------------------------------------------------------------------

  /** What a valid global-metrics request is, stated on its own. */
  predicate GlobalAcceptable(q: GlobalMetricRequest, now: Timestamp) {
    && !Naive(q.startTime) && !Naive(q.endTime)
    && NotFuture(q.startTime, now) && NotFuture(q.endTime, now)
    && MinLimit <= q.limit <= MaxLimit && q.offset >= 0
    && !Inverted(q.startTime, q.endTime)
  }

  function ValidateGlobal(q: GlobalMetricRequest, now: Timestamp): (r: Validated<GlobalMetricRequest>)
    ensures r.NaiveComparison? <==> Naive(q.startTime) || Naive(q.endTime)
    ensures r.Accepted? <==> GlobalAcceptable(q, now)
    ensures r.Accepted? ==> r.request == q
    ensures r.Rejected? ==> |r.errors| > 0
    ensures r.Rejected? && Inverted(q.startTime, q.endTime) && NotFuture(q.startTime, now)
              && NotFuture(q.endTime, now) && MinLimit <= q.limit <= MaxLimit && q.offset >= 0
            ==> r.errors == [FieldError("", BadRange("start_time must be before end_time"))]
  {
    if Naive(q.startTime) || Naive(q.endTime) then NaiveComparison
    else
      var errors := FutureError("start_time", q.startTime, now) + FutureError("end_time", q.endTime, now)
                    + BoundsError("limit", q.limit, MinLimit, Some(MaxLimit))
                    + BoundsError("offset", q.offset, 0, None);
      if errors != [] then Rejected(errors)
      else if Inverted(q.startTime, q.endTime) then
        Rejected([FieldError("", BadRange("start_time must be before end_time"))])
      else Accepted(q)
  }

  /** What a valid route-metrics request is, stated on its own. */
  predicate RouteMetricsAcceptable(q: RouteMetricsRequest, now: Timestamp) {
    && !Naive(q.start) && !Naive(q.end) && !Naive(q.cursor)
    && RouteAcceptable(q.route)
    && NotFuture(q.start, now) && NotFuture(q.end, now) && NotFuture(q.cursor, now)
    && MinLimit <= q.limit <= MaxLimit
    && !Inverted(q.start, q.end)
    && !Inverted(q.start, q.cursor)
  }

  /** Accepted requests carry the stripped route. */
  function ValidateRouteMetrics(q: RouteMetricsRequest, now: Timestamp): (r: Validated<RouteMetricsRequest>)
    ensures r.NaiveComparison? <==> Naive(q.start) || Naive(q.end) || Naive(q.cursor)
    ensures r.Accepted? <==> RouteMetricsAcceptable(q, now)
    ensures r.Accepted? ==> r.request == q.(route := StripRoute(q.route))
    ensures r.Rejected? ==> |r.errors| > 0
  {
    if Naive(q.start) || Naive(q.end) || Naive(q.cursor) then NaiveComparison
    else
      var errors := RouteError("route", q.route)
                    + FutureError("start", q.start, now) + FutureError("end", q.end, now)
                    + BoundsError("limit", q.limit, MinLimit, Some(MaxLimit))
                    + FutureError("cursor", q.cursor, now);
      if errors != [] then Rejected(errors)
      else if Inverted(q.start, q.end) then Rejected([FieldError("", BadRange("start must be before end"))])
      else if Inverted(q.start, q.cursor) then
        Rejected([FieldError("", BadRange("cursor cannot be older than start"))])
      else Accepted(q.(route := StripRoute(q.route)))
  }

  /** What a valid status-code request is, stated on its own. */
  predicate StatusCodeAcceptable(q: RouteStatusCodeMetricsRequest, now: Timestamp) {
    && !Naive(q.startTime) && !Naive(q.endTime)
    && RouteAcceptable(q.route)
    && (q.statusCode.None? || MinStatusCode <= q.statusCode.value <= MaxStatusCode)
    && NotFuture(q.startTime, now) && NotFuture(q.endTime, now)
    && MinLimit <= q.limit <= MaxLimit && q.offset >= 0
    && !Inverted(q.startTime, q.endTime)
  }

  function ValidateStatusCode(q: RouteStatusCodeMetricsRequest, now: Timestamp)
    : (r: Validated<RouteStatusCodeMetricsRequest>)
    ensures r.NaiveComparison? <==> Naive(q.startTime) || Naive(q.endTime)
    ensures r.Accepted? <==> StatusCodeAcceptable(q, now)
    ensures r.Accepted? ==> r.request == q.(route := StripRoute(q.route))
    ensures r.Rejected? ==> |r.errors| > 0
  {
    if Naive(q.startTime) || Naive(q.endTime) then NaiveComparison
    else
      var errors := RouteError("route", q.route)
                    + (if q.statusCode.Some?
                       then BoundsError("status_code", q.statusCode.value, MinStatusCode, Some(MaxStatusCode))
                       else [])
                    + FutureError("start_time", q.startTime, now) + FutureError("end_time", q.endTime, now)
                    + BoundsError("limit", q.limit, MinLimit, Some(MaxLimit))
                    + BoundsError("offset", q.offset, 0, None);
      if errors != [] then Rejected(errors)
      else if Inverted(q.startTime, q.endTime) then
        Rejected([FieldError("", BadRange("start_time must be before end_time"))])
      else Accepted(q.(route := StripRoute(q.route)))
  }

  /** An accepted status-code request never filters on status code 0, so
      the statement builder's truthiness test on it agrees with "given". */
  lemma AcceptedStatusCodeIsTruthy(q: RouteStatusCodeMetricsRequest, now: Timestamp)
    requires ValidateStatusCode(q, now).Accepted?
    ensures q.statusCode.Some? ==> q.statusCode.value != 0
  {
  }

  /** An accepted route filter starts with '/', so it is never the empty,
      falsy string the statement builders would skip. */
  lemma AcceptedRouteIsTruthy(q: RouteMetricsRequest, now: Timestamp)
    requires ValidateRouteMetrics(q, now).Accepted?
    ensures var route := ValidateRouteMetrics(q, now).request.route;
      route.Some? ==> route.value != [] && route.value[0] == '/' && |route.value| <= MaxRouteLength
  {
  }
}
