/**
 * The HTTP middleware that times every request and hands (route, duration,
 * status) to the in-memory recorder.
 */
module MetricsMiddleware {
  import opened Common
  import opened Aggregator

  /** The characters the route key keeps: `[a-zA-Z0-9/_.-]`. */
  predicate RouteChar(c: char) {
    ('a' <= c <= 'z') || ('A' <= c <= 'Z') || ('0' <= c <= '9')
    || c == '/' || c == '_' || c == '.' || c == '-'
  }

  /** `re.sub(r'[^a-zA-Z0-9/_.-]', '', route)`. */
  function SanitizeRoute(route: string): string {
    Filter(route, RouteChar)
  }

  /** The sanitised key holds only allowed characters (no NUL byte, no
      braces, no spaces), keeps every allowed character of the input in
      order, leaves a clean route alone and is idempotent. */
  lemma SanitizeRouteSpec(route: string, rest: string)
    ensures All(SanitizeRoute(route), RouteChar)
    ensures '\0' !in SanitizeRoute(route)
    ensures forall c :: c in SanitizeRoute(route) <==> c in route && RouteChar(c)
    ensures SanitizeRoute(route + rest) == SanitizeRoute(route) + SanitizeRoute(rest)
    ensures SanitizeRoute(route) == route <==> All(route, RouteChar)
    ensures SanitizeRoute(SanitizeRoute(route)) == SanitizeRoute(route)
  {
    forall c ensures c in SanitizeRoute(route) <==> c in route && RouteChar(c) {
      FilterMembers(route, RouteChar, c);
    }
    FilterConcat(route, rest, RouteChar);
    FilterIdentity(route, RouteChar);
    FilterIdempotent(route, RouteChar);
  }

  /** The key a request is recorded under: the matched route's path template
      when routing found one, otherwise the raw URL path, sanitised. */
  function RouteKey(template: Option<string>, urlPath: string): string {
    SanitizeRoute(if template.Some? then template.value else urlPath)
  }

  /**
   * What `call_next` did: returned a response with a status, or raised.  An
   * HTTPException, or any exception the application has a handler for, is
   * turned into a response inside `call_next` and is a `Returned`; only an
   * exception with no such handler is `Raised`.
   */
  datatype Downstream = Returned(status: int) | Raised

  /** What the client side of the middleware sees. */
  datatype Outcome =
    | Responded(status: int)
    /** The endpoint's own exception, re-raised. */
    | Reraised
    /** `record(route, ...)` in `finally` with `route` never assigned. */
    | UnboundRoute

  /**
   * The middleware as written. `started` and `finished` are the two
   * `perf_counter()` readings. When `call_next` raises, `route` has not
   * been assigned yet, so the `finally` block's `record` call raises
   * UnboundLocalError: the request is not recorded at all and that error
   * replaces the endpoint's exception.
   */
  method Handle(rec: Recorder, template: Option<string>, urlPath: string, downstream: Downstream,
                started: real, finished: real)
    returns (outcome: Outcome)
    requires rec.Valid()
    modifies rec
    ensures rec.Valid()
    ensures downstream.Returned? ==>
      && rec.log == old(rec.log) + [Observation(RouteKey(template, urlPath), finished - started, downstream.status)]
      && outcome == Responded(downstream.status)
    ensures downstream.Raised? ==>
      && rec.log == old(rec.log) && rec.errors == old(rec.errors) && rec.count == old(rec.count)
      && outcome == UnboundRoute
  {
    if downstream.Returned? {
      var route := RouteKey(template, urlPath);
      var status := downstream.status;
      var duration := finished - started;
      rec.Record(route, duration, status);
      outcome := Responded(status);
    } else {
      // status = 500; raise -- then `finally` reads the unassigned `route`.
      outcome := UnboundRoute;
    }
  }

  /**
   * The evidently intended middleware: the route key is read from the
   * request scope in `finally` (routing has put the template there during
   * `call_next`), so a raising endpoint is recorded once with status 500 (and
   * counts as a server error) and its own exception propagates.
   */
  method HandleIntended(rec: Recorder, template: Option<string>, urlPath: string, downstream: Downstream,
                        started: real, finished: real)
    returns (outcome: Outcome)
    requires rec.Valid()
    modifies rec
    ensures rec.Valid()
    ensures var status := if downstream.Returned? then downstream.status else 500;
      rec.log == old(rec.log) + [Observation(RouteKey(template, urlPath), finished - started, status)]
    ensures rec.count == old(rec.count) + 1
    ensures downstream.Returned? ==> outcome == Responded(downstream.status)
    ensures downstream.Raised? ==> outcome == Reraised && rec.errors == old(rec.errors) + 1
  {
    var route := RouteKey(template, urlPath);
    var status;
    if downstream.Returned? {
      status := downstream.status;
      outcome := Responded(status);
    } else {
      status := 500;
      outcome := Reraised;
    }
    rec.Record(route, finished - started, status);
  }
}
