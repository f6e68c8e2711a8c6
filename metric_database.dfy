/** The metrics tables and the statements the metric database issues
    against them: batch inserts that commit or roll back as a whole, and
    the parameterised SELECT statements behind the read endpoints. */
module MetricDatabase {
  import opened Common

  const Schema: string := "metrics"

  // ---------------------------------------------------------------------
  // Rows and primary keys
  // ---------------------------------------------------------------------

  /** One row of `route_metrics`; its primary key is (time, route). */
  datatype RouteRow = RouteRow(time: Timestamp, route: string, requests: nat,
                               avg: real, min: real, max: real,
                               p50: real, p95: real, p99: real)

  /** One row of `route_status_codes`; its primary key is (time, route, status_code). */
  datatype StatusRow = StatusRow(time: Timestamp, route: string, statusCode: int, count: nat)

  /** One row of `global_metrics`; its primary key is time. */
  datatype GlobalRow = GlobalRow(time: Timestamp, totalRequests: nat,
                                 avgResponseTime: real, errorRate: real)

  function RouteRowKey(r: RouteRow): (Timestamp, string) { (r.time, r.route) }
  function StatusRowKey(r: StatusRow): (Timestamp, string, int) { (r.time, r.route, r.statusCode) }
  function GlobalRowKey(r: GlobalRow): Timestamp { r.time }

  /** No two rows share a key. */
  predicate UniqueBy<T, K(==)>(rows: seq<T>, key: T -> K) {
    forall i, j :: 0 <= i < j < |rows| ==> key(rows[i]) != key(rows[j])
  }

  /** No row of `batch` has the key of a row already in `table`. */
  predicate FreshBy<T, K(==)>(table: seq<T>, batch: seq<T>, key: T -> K) {
    forall i, j :: 0 <= i < |batch| && 0 <= j < |table| ==> key(batch[i]) != key(table[j])
  }

  /** A batch that is itself key-unique and disjoint from the table keeps
      the table key-unique when appended. */
  lemma UniqueAppend<T, K>(table: seq<T>, batch: seq<T>, key: T -> K)
    requires UniqueBy(table, key) && UniqueBy(batch, key) && FreshBy(table, batch, key)
    ensures UniqueBy(table + batch, key)
  {
    var all := table + batch;
    forall i, j | 0 <= i < j < |all|
      ensures key(all[i]) != key(all[j])
    {
      if j < |table| {
        assert all[i] == table[i] && all[j] == table[j];
      } else if i < |table| {
        assert all[i] == table[i] && all[j] == batch[j - |table|];
      } else {
        assert all[i] == batch[i - |table|] && all[j] == batch[j - |table|];
      }
    }
  }

  /** Why a statement did not commit: a duplicate primary key, or any other
      error the server reports (lost connection, timeout, ...). */
  datatype DbError = UniqueViolation | ServerError
  datatype Outcome = Committed | Failed(error: DbError)

  /** What `is_ready` can produce: an answer, or the AttributeError raised
      by calling a readiness method the connection pool does not define. */
  datatype ReadyAnswer = Answer(ready: bool) | PoolHasNoIsReady

  /** The three metrics tables, as the statements of the metric database see them. */
  class MetricStore {
    var routeMetrics: seq<RouteRow>
    var routeStatusCodes: seq<StatusRow>
    var globalMetrics: seq<GlobalRow>
    var ready: bool

    /** Every table respects its primary key. */
    ghost predicate Valid()
      reads this
    {
      UniqueBy(routeMetrics, RouteRowKey) && UniqueBy(routeStatusCodes, StatusRowKey)
      && UniqueBy(globalMetrics, GlobalRowKey)
    }

    /** Empty tables; not ready until `InitDb` has run. */
    constructor ()
      ensures Valid() && !ready
      ensures routeMetrics == [] && routeStatusCodes == [] && globalMetrics == []
    {
      routeMetrics := [];
      routeStatusCodes := [];
      globalMetrics := [];
      ready := false;
    }

    /** Ready exactly when no schema migration is pending. */
    method InitDb(migrationNeeded: bool) returns (r: bool)
      modifies this
      ensures r == ready && (ready <==> !migrationNeeded)
      ensures routeMetrics == old(routeMetrics) && routeStatusCodes == old(routeStatusCodes)
      ensures globalMetrics == old(globalMetrics)
    {
      ready := !migrationNeeded;
      r := ready;
    }

    /** `is_ready` as written: with the flag clear it answers False; with it
        set it goes on to the pool's `is_ready`, which the connection pool
        class does not define, so it never answers True. */
    method IsReady() returns (r: ReadyAnswer)
      ensures r == if ready then PoolHasNoIsReady else Answer(false)
      ensures r != Answer(true)
    {
      if !ready {
        r := Answer(false);
      } else {
        r := PoolHasNoIsReady;
      }
    }

    /** The evidently intended readiness: the flag and the pool's own health
        (`poolReady`) together. */
    method IsReadyIntended(poolReady: bool) returns (r: bool)
      ensures r <==> ready && poolReady
      ensures r ==> ready
    {
      r := ready && poolReady;
    }

    /** One batch insert into `route_metrics`, in one transaction: either
        every row is added or, after a rollback, none is. `serverError`
        stands for a failure unrelated to the rows themselves. */
    method InsertRouteMetrics(rows: seq<RouteRow>, serverError: bool) returns (outcome: Outcome)
      requires Valid()
      modifies this
      ensures Valid()
      ensures outcome == Committed <==>
        !serverError && UniqueBy(rows, RouteRowKey) && FreshBy(old(routeMetrics), rows, RouteRowKey)
      ensures outcome == Failed(UniqueViolation) <==>
        !serverError && !(UniqueBy(rows, RouteRowKey) && FreshBy(old(routeMetrics), rows, RouteRowKey))
      ensures routeMetrics == if outcome == Committed then old(routeMetrics) + rows else old(routeMetrics)
      ensures routeStatusCodes == old(routeStatusCodes) && globalMetrics == old(globalMetrics)
      ensures ready == old(ready)
    {
      if serverError {
        outcome := Failed(ServerError);
      } else if !(UniqueBy(rows, RouteRowKey) && FreshBy(routeMetrics, rows, RouteRowKey)) {
        outcome := Failed(UniqueViolation);
      } else {
        UniqueAppend(routeMetrics, rows, RouteRowKey);
        routeMetrics := routeMetrics + rows;
        outcome := Committed;
      }
    }

    /** One batch insert into `route_status_codes`, all or nothing. */
    method InsertRouteStatusCodeMetrics(rows: seq<StatusRow>, serverError: bool) returns (outcome: Outcome)
      requires Valid()
      modifies this
      ensures Valid()
      ensures outcome == Committed <==>
        !serverError && UniqueBy(rows, StatusRowKey) && FreshBy(old(routeStatusCodes), rows, StatusRowKey)
      ensures outcome == Failed(UniqueViolation) <==>
        !serverError && !(UniqueBy(rows, StatusRowKey) && FreshBy(old(routeStatusCodes), rows, StatusRowKey))
      ensures routeStatusCodes == if outcome == Committed then old(routeStatusCodes) + rows else old(routeStatusCodes)
      ensures routeMetrics == old(routeMetrics) && globalMetrics == old(globalMetrics)
      ensures ready == old(ready)
    {
      if serverError {
        outcome := Failed(ServerError);
      } else if !(UniqueBy(rows, StatusRowKey) && FreshBy(routeStatusCodes, rows, StatusRowKey)) {
        outcome := Failed(UniqueViolation);
      } else {
        UniqueAppend(routeStatusCodes, rows, StatusRowKey);
        routeStatusCodes := routeStatusCodes + rows;
        outcome := Committed;
      }
    }

    /** One row into `global_metrics`; a second row for the same time is refused. */
    method InsertGlobalMetrics(now: Timestamp, totalRequests: nat, avgResponseTime: real,
                               errorRate: real, serverError: bool) returns (outcome: Outcome)
      requires Valid()
      modifies this
      ensures Valid()
      ensures outcome == Committed <==>
        !serverError && forall j :: 0 <= j < |old(globalMetrics)| ==> old(globalMetrics)[j].time != now
      ensures outcome == Failed(UniqueViolation) <==>
        !serverError && exists j :: 0 <= j < |old(globalMetrics)| && old(globalMetrics)[j].time == now
      ensures globalMetrics == if outcome == Committed
        then old(globalMetrics) + [GlobalRow(now, totalRequests, avgResponseTime, errorRate)]
        else old(globalMetrics)
      ensures routeMetrics == old(routeMetrics) && routeStatusCodes == old(routeStatusCodes)
      ensures ready == old(ready)
    {
      var row := GlobalRow(now, totalRequests, avgResponseTime, errorRate);
      assert FreshBy(globalMetrics, [row], GlobalRowKey) <==>
             forall j :: 0 <= j < |globalMetrics| ==> globalMetrics[j].time != now by {
        assert [row][0] == row;
      }
      if serverError {
        outcome := Failed(ServerError);
      } else if !FreshBy(globalMetrics, [row], GlobalRowKey) {
        outcome := Failed(UniqueViolation);
      } else {
        UniqueAppend(globalMetrics, [row], GlobalRowKey);
        globalMetrics := globalMetrics + [row];
        outcome := Committed;
      }
    }
  }

  // ---------------------------------------------------------------------
  // Parameterised SELECT statements
  // ---------------------------------------------------------------------

  /** A value bound to a `%s` placeholder. */
  datatype Param = PText(text: string) | PInt(n: int) | PTime(t: Timestamp)

  /** A statement is literal text interleaved with `%s` placeholders. */
  datatype Piece = Lit(text: string) | Slot

  /** The statement's text as the driver receives it. */
  function Render(q: seq<Piece>): string {
    if q == [] then "" else Render(q[..|q| - 1]) + (match q[|q| - 1] case Lit(t) => t case Slot => "%s")
  }

  /** How many placeholders the statement holds. */
  function Slots(q: seq<Piece>): nat {
    if q == [] then 0 else (if q[0] == Slot then 1 else 0) + Slots(q[1..])
  }

  lemma {:induction false} SlotsConcat(a: seq<Piece>, b: seq<Piece>)
    ensures Slots(a + b) == Slots(a) + Slots(b)
  {
    if a == [] {
      assert a + b == b;
    } else {
      assert (a + b)[1..] == a[1..] + b;
      SlotsConcat(a[1..], b);
    }
  }

  lemma SlotsSingle(p: Piece)
    ensures Slots([p]) == if p == Slot then 1 else 0
  {
    assert [p][1..] == [];
  }

  /** A literal, a placeholder and a literal: one placeholder. */
  lemma SlotsAround(before: string, after: string)
    ensures Slots([Lit(before), Slot, Lit(after)]) == 1
  {
    var q := [Lit(before), Slot, Lit(after)];
    assert q[1..] == [Slot] + [Lit(after)];
    SlotsConcat([Slot], [Lit(after)]);
    SlotsSingle(Slot);
    SlotsSingle(Lit(after));
  }

  /** One `AND column op %s` condition of a WHERE clause. */
  datatype Filter = Filter(column: string, op: string, value: Param)

  /** The text one condition appends: ` AND column op %s`. */
  function ConditionPieces(f: Filter): seq<Piece> {
    [Lit(" AND " + f.column + " " + f.op + " "), Slot]
  }

  function FilterPieces(fs: seq<Filter>): (q: seq<Piece>)
    ensures Slots(q) == |fs|
  {
    if fs == [] then []
    else
      var init, c := FilterPieces(fs[..|fs| - 1]), ConditionPieces(fs[|fs| - 1]);
      SlotsConcat(init, c);
      assert c[1..] == [Slot];
      SlotsSingle(Slot);
      init + c
  }

  /** The parameters of the conditions, in the same order. */
  function Values(fs: seq<Filter>): seq<Param> {
    seq(|fs|, i requires 0 <= i < |fs| => fs[i].value)
  }

  /** Python truthiness of an optional text argument: None and "" are falsy. */
  predicate TextGiven(s: Option<string>) { s.Some? && s.value != "" }

  /** Python truthiness of an optional int argument: None and 0 are falsy. */
  predicate IntGiven(n: Option<int>) { n.Some? && n.value != 0 }

  // A datetime object is always truthy, so an optional time is given iff it is Some.

  /** The column the status-code and global statements use for time. */
  const TimeBucketColumn: string := "time_bucket"

  /** The parameter a text argument contributes, if it is truthy. */
  function TextArg(s: Option<string>): Option<Param> {
    if TextGiven(s) then Some(PText(s.value)) else None
  }

  /** The parameter an int argument contributes, if it is truthy. */
  function IntArg(n: Option<int>): Option<Param> {
    if IntGiven(n) then Some(PInt(n.value)) else None
  }

  /** The parameter a time argument contributes, if it is given. */
  function TimeArg(t: Option<Timestamp>): Option<Param> {
    if t.Some? then Some(PTime(t.value)) else None
  }

  /** One condition when its argument contributes a parameter, none otherwise. */
  function Cond(column: string, op: string, arg: Option<Param>): seq<Filter> {
    if arg.Some? then [Filter(column, op, arg.value)] else []
  }

  /** The conditions `get_route_metrics` adds, in the order it adds them. */
  function RouteMetricsFilters(route: Option<string>, start: Option<Timestamp>,
                               end: Option<Timestamp>, cursor: Option<Timestamp>): seq<Filter>
  {
    Cond("route", "=", TextArg(route)) + Cond("time", ">=", TimeArg(start))
    + Cond("time", "<=", TimeArg(end)) + Cond("time", "<", TimeArg(cursor))
  }

  /** The conditions `get_route_status_code_metrics` adds, with the time
      conditions on `timeColumn`. */
  function StatusCodeFilters(timeColumn: string, route: Option<string>, statusCode: Option<int>,
                             startTime: Option<Timestamp>, endTime: Option<Timestamp>): seq<Filter>
  {
    Cond("route", "=", TextArg(route)) + Cond("status_code", "=", IntArg(statusCode))
    + Cond(timeColumn, ">=", TimeArg(startTime)) + Cond(timeColumn, "<=", TimeArg(endTime))
  }

  /** The conditions `get_global_metrics` adds. */
  function GlobalFilters(timeColumn: string, startTime: Option<Timestamp>,
                         endTime: Option<Timestamp>): seq<Filter>
  {
    Cond(timeColumn, ">=", TimeArg(startTime)) + Cond(timeColumn, "<=", TimeArg(endTime))
  }

  function OrderKeyword(newestFirst: bool): string { if newestFirst then "DESC" else "ASC" }

  const RouteMetricsHead: string :=
    "\n            SELECT *\n            FROM " + Schema + ".route_metrics\n            WHERE 1=1\n        "
  const StatusCodeHead: string :=
    "\n            SELECT\n                time_bucket,\n                route,\n                status_code,\n                count\n            FROM "
    + Schema + ".route_status_codes\n            WHERE 1=1\n        "
  const GlobalHead: string :=
    "\n            SELECT\n                time_bucket,\n                total_requests,\n                avg_response_time,\n                error_rate\n            FROM "
    + Schema + ".global_metrics\n            WHERE 1=1\n        "

  /** The tail of a paged statement: ordering, then LIMIT and OFFSET placeholders. */
  function PagedTail(newestFirst: bool): (q: seq<Piece>)
    ensures Slots(q) == 2
  {
    var order, limit, offset := [Lit(" ORDER BY " + TimeBucketColumn + " " + OrderKeyword(newestFirst))],
                                [Lit(" LIMIT "), Slot, Lit(" OFFSET ")], [Slot];
    SlotsSingle(order[0]);
    SlotsAround(" LIMIT ", " OFFSET ");
    SlotsSingle(Slot);
    SlotsConcat(order, limit);
    SlotsConcat(order + limit, offset);
    order + limit + offset
  }

  /** `if arg: query += " AND column op %s"; params.append(arg)`: a given
      argument adds one condition and its parameter, an absent one nothing.
      `head` and `fs` are the statement's opening text and the conditions
      added so far. */
  method AddCondition(query: seq<Piece>, params: seq<Param>, ghost head: string, ghost fs: seq<Filter>,
                      column: string, op: string, arg: Option<Param>)
    returns (query': seq<Piece>, params': seq<Param>)
    requires query == [Lit(head)] + FilterPieces(fs) && params == Values(fs)
    ensures query' == [Lit(head)] + FilterPieces(fs + Cond(column, op, arg))
    ensures params' == Values(fs + Cond(column, op, arg))
  {
    query', params' := query, params;
    if arg.Some? {
      var f := Filter(column, op, arg.value);
      assert (fs + [f])[..|fs|] == fs;
      query' := query' + ConditionPieces(f);
      params' := params' + [f.value];
    } else {
      assert fs + [] == fs;
    }
  }

  /** The statement and parameters behind `get_route_metrics`: every given
      filter contributes one condition and one parameter, newest rows first,
      at most `limit` of them. */
  method GetRouteMetrics(route: Option<string>, start: Option<Timestamp>, end: Option<Timestamp>,
                         limit: int, cursor: Option<Timestamp>)
    returns (query: seq<Piece>, params: seq<Param>)
    ensures Slots(query) == |params|
    ensures params == Values(RouteMetricsFilters(route, start, end, cursor)) + [PInt(limit)]
    ensures query == [Lit(RouteMetricsHead)] + FilterPieces(RouteMetricsFilters(route, start, end, cursor))
                     + [Lit("\n            ORDER BY time DESC\n            LIMIT "), Slot, Lit("\n        ")]
  {
    ghost var c1, c2, c3 := Cond("route", "=", TextArg(route)), Cond("time", ">=", TimeArg(start)),
                            Cond("time", "<=", TimeArg(end));
    query, params := [Lit(RouteMetricsHead)], [];
    query, params := AddCondition(query, params, RouteMetricsHead, [], "route", "=", TextArg(route));
    assert [] + c1 == c1;
    query, params := AddCondition(query, params, RouteMetricsHead, c1, "time", ">=", TimeArg(start));
    query, params := AddCondition(query, params, RouteMetricsHead, c1 + c2, "time", "<=", TimeArg(end));
    // cursor pagination: strictly older than the cursor
    query, params := AddCondition(query, params, RouteMetricsHead, c1 + c2 + c3, "time", "<", TimeArg(cursor));
    SlotsConcat([Lit(RouteMetricsHead)], FilterPieces(c1 + c2 + c3 + Cond("time", "<", TimeArg(cursor))));
    SlotsSingle(Lit(RouteMetricsHead));
    SlotsConcat(query, [Lit("\n            ORDER BY time DESC\n            LIMIT "), Slot, Lit("\n        ")]);
    SlotsAround("\n            ORDER BY time DESC\n            LIMIT ", "\n        ");
    query := query + [Lit("\n            ORDER BY time DESC\n            LIMIT "), Slot, Lit("\n        ")];
    params := params + [PInt(limit)];
  }

  /** The statement and parameters behind `get_route_status_code_metrics`:
      the given filters, then ordering and one LIMIT and one OFFSET
      parameter, in that order. */
  method GetRouteStatusCodeMetrics(route: Option<string>, statusCode: Option<int>,
                                   startTime: Option<Timestamp>, endTime: Option<Timestamp>,
                                   limit: int, offset: int, newestFirst: bool)
    returns (query: seq<Piece>, params: seq<Param>)
    ensures Slots(query) == |params|
    ensures params == Values(StatusCodeFilters(TimeBucketColumn, route, statusCode, startTime, endTime))
                      + [PInt(limit), PInt(offset)]
    ensures query == [Lit(StatusCodeHead)]
                     + FilterPieces(StatusCodeFilters(TimeBucketColumn, route, statusCode, startTime, endTime))
                     + PagedTail(newestFirst)
  {
    ghost var c1, c2, c3 := Cond("route", "=", TextArg(route)), Cond("status_code", "=", IntArg(statusCode)),
                            Cond(TimeBucketColumn, ">=", TimeArg(startTime));
    query, params := [Lit(StatusCodeHead)], [];
    query, params := AddCondition(query, params, StatusCodeHead, [], "route", "=", TextArg(route));
    assert [] + c1 == c1;
    query, params := AddCondition(query, params, StatusCodeHead, c1, "status_code", "=", IntArg(statusCode));
    query, params := AddCondition(query, params, StatusCodeHead, c1 + c2, TimeBucketColumn, ">=", TimeArg(startTime));
    query, params := AddCondition(query, params, StatusCodeHead, c1 + c2 + c3, TimeBucketColumn, "<=", TimeArg(endTime));
    SlotsConcat([Lit(StatusCodeHead)], FilterPieces(c1 + c2 + c3 + Cond(TimeBucketColumn, "<=", TimeArg(endTime))));
    SlotsSingle(Lit(StatusCodeHead));
    SlotsConcat(query, PagedTail(newestFirst));
    query := query + PagedTail(newestFirst);
    params := params + [PInt(limit), PInt(offset)];
  }

  /** The statement and parameters behind `get_global_metrics`: only a time
      range, then ordering, LIMIT and OFFSET. */
  method GetGlobalMetrics(startTime: Option<Timestamp>, endTime: Option<Timestamp>,
                          limit: int, offset: int, newestFirst: bool)
    returns (query: seq<Piece>, params: seq<Param>)
    ensures Slots(query) == |params|
    ensures params == Values(GlobalFilters(TimeBucketColumn, startTime, endTime)) + [PInt(limit), PInt(offset)]
    ensures query == [Lit(GlobalHead)] + FilterPieces(GlobalFilters(TimeBucketColumn, startTime, endTime))
                     + PagedTail(newestFirst)
  {
    ghost var c1 := Cond(TimeBucketColumn, ">=", TimeArg(startTime));
    query, params := [Lit(GlobalHead)], [];
    query, params := AddCondition(query, params, GlobalHead, [], TimeBucketColumn, ">=", TimeArg(startTime));
    assert [] + c1 == c1;
    query, params := AddCondition(query, params, GlobalHead, c1, TimeBucketColumn, "<=", TimeArg(endTime));
    SlotsConcat([Lit(GlobalHead)], FilterPieces(c1 + Cond(TimeBucketColumn, "<=", TimeArg(endTime))));
    SlotsSingle(Lit(GlobalHead));
    SlotsConcat(query, PagedTail(newestFirst));
    query := query + PagedTail(newestFirst);
    params := params + [PInt(limit), PInt(offset)];
  }

  // ---------------------------------------------------------------------
  // What a WHERE clause selects
  // ---------------------------------------------------------------------

  /** A row as the columns a condition can name. */
  type Columns = map<string, Param>

  function RouteColumns(r: RouteRow): Columns {
    map["time" := PTime(r.time), "route" := PText(r.route), "requests" := PInt(r.requests)]
  }

  function StatusColumns(r: StatusRow): Columns {
    map["time" := PTime(r.time), "route" := PText(r.route),
        "status_code" := PInt(r.statusCode), "count" := PInt(r.count)]
  }

  function GlobalColumns(r: GlobalRow): Columns {
    map["time" := PTime(r.time), "total_requests" := PInt(r.totalRequests)]
  }

  predicate CompareInts(a: int, op: string, b: int) {
    (op == "=" && a == b) || (op == "<" && a < b) || (op == "<=" && a <= b) || (op == ">=" && a >= b)
  }

  /** SQL comparison of a column value with a bound parameter. */
  predicate Compares(lhs: Param, op: string, rhs: Param) {
    match (lhs, rhs)
    case (PTime(a), PTime(b)) => CompareInts(a, op, b)
    case (PInt(a), PInt(b)) => CompareInts(a, op, b)
    case (PText(a), PText(b)) => op == "=" && a == b
    case _ => false
  }

  /** Every condition names a column of the row. */
  predicate Names(fs: seq<Filter>, cols: Columns) {
    forall i :: 0 <= i < |fs| ==> fs[i].column in cols
  }

  /** The row passes every condition of `WHERE 1=1 AND ...`. */
  predicate Selects(fs: seq<Filter>, cols: Columns)
    requires Names(fs, cols)
  {
    forall i :: 0 <= i < |fs| ==> Compares(cols[fs[i].column], fs[i].op, fs[i].value)
  }

  lemma SelectsConcat(a: seq<Filter>, b: seq<Filter>, cols: Columns)
    requires Names(a, cols) && Names(b, cols)
    ensures Names(a + b, cols)
    ensures Selects(a + b, cols) <==> Selects(a, cols) && Selects(b, cols)
  {
    var ab := a + b;
    assert forall i :: 0 <= i < |a| ==> ab[i] == a[i];
    assert forall i :: 0 <= i < |b| ==> ab[|a| + i] == b[i];
  }

  /** A single optional condition passes when it is absent or its
      comparison holds. */
  lemma SelectsCond(column: string, op: string, arg: Option<Param>, cols: Columns)
    requires column in cols
    ensures Names(Cond(column, op, arg), cols)
    ensures Selects(Cond(column, op, arg), cols) <==> arg.None? || Compares(cols[column], op, arg.value)
  {
    if arg.Some? {
      assert Cond(column, op, arg)[0] == Filter(column, op, arg.value);
    }
  }

  /** A route-metrics row is selected exactly when it has the requested
      route, lies in the inclusive [start, end] range and is strictly older
      than the cursor; each absent filter imposes nothing. */
  lemma RouteMetricsWhere(route: Option<string>, start: Option<Timestamp>, end: Option<Timestamp>,
                          cursor: Option<Timestamp>, r: RouteRow)
    ensures Names(RouteMetricsFilters(route, start, end, cursor), RouteColumns(r))
    ensures Selects(RouteMetricsFilters(route, start, end, cursor), RouteColumns(r)) <==>
      (TextGiven(route) ==> r.route == route.value)
      && (start.Some? ==> start.value <= r.time)
      && (end.Some? ==> r.time <= end.value)
      && (cursor.Some? ==> r.time < cursor.value)
  {
    var cols := RouteColumns(r);
    var c1, c2, c3, c4 := Cond("route", "=", TextArg(route)), Cond("time", ">=", TimeArg(start)),
                          Cond("time", "<=", TimeArg(end)), Cond("time", "<", TimeArg(cursor));
    assert "route" != "time";
    SelectsCond("route", "=", TextArg(route), cols);
    SelectsCond("time", ">=", TimeArg(start), cols);
    SelectsCond("time", "<=", TimeArg(end), cols);
    SelectsCond("time", "<", TimeArg(cursor), cols);
    SelectsConcat(c1, c2, cols);
    SelectsConcat(c1 + c2, c3, cols);
    SelectsConcat(c1 + c2 + c3, c4, cols);
  }

  /** As written, a time range on the status-code statement names the
      column `time_bucket`, which no row of `route_status_codes` has (its
      time column is `time`), and the ordering names it unconditionally. */
  lemma StatusCodeTimeColumnMissing(route: Option<string>, statusCode: Option<int>,
                                    startTime: Option<Timestamp>, endTime: Option<Timestamp>,
                                    newestFirst: bool, r: StatusRow)
    ensures TimeBucketColumn !in StatusColumns(r)
    ensures startTime.Some? || endTime.Some? ==>
      !Names(StatusCodeFilters(TimeBucketColumn, route, statusCode, startTime, endTime), StatusColumns(r))
    ensures PagedTail(newestFirst)[0] == Lit(" ORDER BY " + TimeBucketColumn + " " + OrderKeyword(newestFirst))
  {
    var fs := StatusCodeFilters(TimeBucketColumn, route, statusCode, startTime, endTime);
    assert "time_bucket" != "time" by { assert |"time_bucket"| != |"time"|; }
    assert "time_bucket" != "route" && "time_bucket" != "status_code" && "time_bucket" != "count";
    if startTime.Some? || endTime.Some? {
      var pre := Cond("route", "=", TextArg(route)) + Cond("status_code", "=", IntArg(statusCode));
      var i := if startTime.Some? then |pre| else |pre + Cond(TimeBucketColumn, ">=", TimeArg(startTime))|;
      assert fs[i].column == TimeBucketColumn;
    }
  }

  /** With the time conditions on `time`, a status-code row is selected
      exactly when it matches the route and status code that were given and
      lies in the inclusive time range. */
  lemma StatusCodeWhere(route: Option<string>, statusCode: Option<int>,
                        startTime: Option<Timestamp>, endTime: Option<Timestamp>, r: StatusRow)
    ensures Names(StatusCodeFilters("time", route, statusCode, startTime, endTime), StatusColumns(r))
    ensures Selects(StatusCodeFilters("time", route, statusCode, startTime, endTime), StatusColumns(r)) <==>
      (TextGiven(route) ==> r.route == route.value)
      && (IntGiven(statusCode) ==> r.statusCode == statusCode.value)
      && (startTime.Some? ==> startTime.value <= r.time)
      && (endTime.Some? ==> r.time <= endTime.value)
  {
    var cols := StatusColumns(r);
    var c1, c2, c3, c4 := Cond("route", "=", TextArg(route)), Cond("status_code", "=", IntArg(statusCode)),
                          Cond("time", ">=", TimeArg(startTime)), Cond("time", "<=", TimeArg(endTime));
    assert "route" != "time" && "status_code" != "time" && "route" != "status_code";
    SelectsCond("route", "=", TextArg(route), cols);
    SelectsCond("status_code", "=", IntArg(statusCode), cols);
    SelectsCond("time", ">=", TimeArg(startTime), cols);
    SelectsCond("time", "<=", TimeArg(endTime), cols);
    SelectsConcat(c1, c2, cols);
    SelectsConcat(c1 + c2, c3, cols);
    SelectsConcat(c1 + c2 + c3, c4, cols);
  }

  /** As written, the global statement's time range names `time_bucket`,
      which no row of `global_metrics` has. */
  lemma GlobalTimeColumnMissing(startTime: Option<Timestamp>, endTime: Option<Timestamp>, r: GlobalRow)
    ensures TimeBucketColumn !in GlobalColumns(r)
    ensures startTime.Some? || endTime.Some? ==>
      !Names(GlobalFilters(TimeBucketColumn, startTime, endTime), GlobalColumns(r))
  {
    var fs := GlobalFilters(TimeBucketColumn, startTime, endTime);
    assert "time_bucket" != "time" by { assert |"time_bucket"| != |"time"|; }
    assert "time_bucket" != "total_requests";
    if startTime.Some? || endTime.Some? {
      assert fs[0].column == TimeBucketColumn;
    }
  }

  /** With the time conditions on `time`, a global row is selected exactly
      when it lies in the inclusive time range. */
  lemma GlobalWhere(startTime: Option<Timestamp>, endTime: Option<Timestamp>, r: GlobalRow)
    ensures Names(GlobalFilters("time", startTime, endTime), GlobalColumns(r))
    ensures Selects(GlobalFilters("time", startTime, endTime), GlobalColumns(r)) <==>
      (startTime.Some? ==> startTime.value <= r.time) && (endTime.Some? ==> r.time <= endTime.value)
  {
    SelectsCond("time", ">=", TimeArg(startTime), GlobalColumns(r));
    SelectsCond("time", "<=", TimeArg(endTime), GlobalColumns(r));
    SelectsConcat(Cond("time", ">=", TimeArg(startTime)), Cond("time", "<=", TimeArg(endTime)), GlobalColumns(r));
  }
}
