/**
 * One iteration of the background flush loop: summarise the in-memory
 * metrics, write one row per route, one per (route, status code) and one
 * global row for the current minute, then clear the recorder and note the
 * outcome in the health record. The first failing insert ends the
 * iteration: the recorder keeps its data and the failure is counted.
 */
module FlushWorker {
  import opened Common
  import opened Aggregator
  import opened Health
  import opened MetricDatabase

  /** Seconds the loop sleeps between iterations. */
  const FlushIntervalSeconds: int := 60

  /** `now.replace(second=0, microsecond=0)`: the start of `t`'s minute. */
  function FloorToMinute(t: Timestamp): (b: Timestamp)
    ensures b <= t < b + MicrosPerMinute
    ensures b % MicrosPerMinute == 0
  {
    t - t % MicrosPerMinute
  }

  /** Flooring a minute start changes nothing, and flooring keeps order. */
  lemma FloorToMinuteSpec(t: Timestamp, u: Timestamp)
    ensures FloorToMinute(FloorToMinute(t)) == FloorToMinute(t)
    ensures t <= u ==> FloorToMinute(t) <= FloorToMinute(u)
    ensures FloorToMinute(t) == FloorToMinute(u) <==> t / MicrosPerMinute == u / MicrosPerMinute
  {
    var b := FloorToMinute(t);
    assert b == (t / MicrosPerMinute) * MicrosPerMinute;
    assert FloorToMinute(u) == (u / MicrosPerMinute) * MicrosPerMinute;
    if t <= u {
      assert t / MicrosPerMinute <= u / MicrosPerMinute;
    }
  }

  /** Two iterations a full interval apart never share a minute bucket. */
  lemma IntervalApartBuckets(t1: Timestamp, t2: Timestamp)
    requires t1 + FlushIntervalSeconds * 1_000_000 <= t2
    ensures FloorToMinute(t1) < FloorToMinute(t2)
  {
  }

  /** The row written for one route's summary. */
  function RouteRowOf(bucket: Timestamp, route: string, s: RouteSummary): RouteRow {
    RouteRow(bucket, route, s.count, s.avg, s.min, s.max, s.p50, s.p95, s.p99)
  }

  /** The route rows of one iteration, from the recorder's durations, in
      the recorder's route order. */
  function RouteRows(bucket: Timestamp, routes: seq<string>, data: map<string, seq<real>>,
                     percentile: Percentile): seq<RouteRow>
    requires forall r :: r in routes ==> r in data && data[r] != []
  {
    seq(|routes|, i requires 0 <= i < |routes| =>
      RouteRowOf(bucket, routes[i], SummaryOf(data[routes[i]], percentile)))
  }

  /** The status rows of one iteration, in the counters' key order. */
  function StatusRows(bucket: Timestamp, keys: seq<StatusKey>, counts: map<StatusKey, nat>): seq<StatusRow>
    requires forall k :: k in keys ==> k in counts
  {
    seq(|keys|, i requires 0 <= i < |keys| => StatusRow(bucket, keys[i].0, keys[i].1, counts[keys[i]]))
  }

  /** The requests the route rows account for. */
  function RequestSum(rows: seq<RouteRow>): nat {
    if rows == [] then 0 else RequestSum(rows[..|rows| - 1]) + rows[|rows| - 1].requests
  }

  /** The requests the status rows account for. */
  function StatusCountSum(rows: seq<StatusRow>): nat {
    if rows == [] then 0 else StatusCountSum(rows[..|rows| - 1]) + rows[|rows| - 1].count
  }

  /** Every route row lies in the iteration's bucket, names its route, counts
      that route's requests and orders min <= avg <= max; distinct routes
      give rows with distinct primary keys. */
  lemma RouteRowsSpec(bucket: Timestamp, routes: seq<string>, data: map<string, seq<real>>,
                      percentile: Percentile)
    requires forall r :: r in routes ==> r in data && data[r] != []
    ensures var rows := RouteRows(bucket, routes, data, percentile);
      |rows| == |routes|
      && (forall i :: 0 <= i < |rows| ==>
            rows[i].time == bucket && rows[i].route == routes[i]
            && rows[i].requests == |data[routes[i]]|
            && rows[i].min <= rows[i].avg <= rows[i].max)
      && (Distinct(routes) ==> UniqueBy(rows, RouteRowKey))
  {
    var rows := RouteRows(bucket, routes, data, percentile);
    forall i | 0 <= i < |rows|
      ensures rows[i].requests == |data[routes[i]]| && rows[i].min <= rows[i].avg <= rows[i].max
    {
      SummaryOfSpec(data[routes[i]], percentile);
    }
  }

  /** Every status row lies in the bucket and carries its key's counter;
      distinct keys give distinct primary keys. */
  lemma StatusRowsSpec(bucket: Timestamp, keys: seq<StatusKey>, counts: map<StatusKey, nat>)
    requires forall k :: k in keys ==> k in counts
    ensures var rows := StatusRows(bucket, keys, counts);
      |rows| == |keys|
      && (forall i :: 0 <= i < |rows| ==>
            rows[i].time == bucket && (rows[i].route, rows[i].statusCode) == keys[i]
            && rows[i].count == counts[keys[i]])
      && (Distinct(keys) ==> UniqueBy(rows, StatusRowKey))
  {
  }

  lemma {:induction false} RequestSumIsLengthSum(bucket: Timestamp, routes: seq<string>,
                                                 data: map<string, seq<real>>, percentile: Percentile)
    requires forall r :: r in routes ==> r in data && data[r] != []
    ensures RequestSum(RouteRows(bucket, routes, data, percentile)) == LengthSum(routes, data)
  {
    if routes != [] {
      var init := routes[..|routes| - 1];
      var rows := RouteRows(bucket, routes, data, percentile);
      assert rows[..|rows| - 1] == RouteRows(bucket, init, data, percentile);
      RequestSumIsLengthSum(bucket, init, data, percentile);
      SummaryOfSpec(data[routes[|routes| - 1]], percentile);
    }
  }

  lemma {:induction false} StatusCountSumIsCountSum(bucket: Timestamp, keys: seq<StatusKey>,
                                                    counts: map<StatusKey, nat>)
    requires forall k :: k in keys ==> k in counts
    ensures StatusCountSum(StatusRows(bucket, keys, counts)) == CountSum(keys, counts)
  {
    if keys != [] {
      var init := keys[..|keys| - 1];
      var rows := StatusRows(bucket, keys, counts);
      assert rows[..|rows| - 1] == StatusRows(bucket, init, counts);
      StatusCountSumIsCountSum(bucket, init, counts);
    }
  }

  /** What one iteration writes accounts for every request recorded since
      the last reset exactly once, both by route and by status code. */
  lemma FlushCoversEveryRequest(rec: Recorder, bucket: Timestamp, percentile: Percentile)
    requires rec.Valid()
    ensures forall r :: r in rec.routeOrder ==> r in rec.routeData && rec.routeData[r] != []
    ensures forall k :: k in rec.statusOrder ==> k in rec.statusCounts
    ensures RequestSum(RouteRows(bucket, rec.routeOrder, rec.routeData, percentile)) == |rec.log|
    ensures StatusCountSum(StatusRows(bucket, rec.statusOrder, rec.statusCounts)) == |rec.log|
  {
    RecorderTotals(rec);
    RequestSumIsLengthSum(bucket, rec.routeOrder, rec.routeData, percentile);
    StatusCountSumIsCountSum(bucket, rec.statusOrder, rec.statusCounts);
  }

  /** Rows written by an iteration never collide with rows an iteration a
      full interval earlier wrote. */
  lemma LaterIterationFresh(t1: Timestamp, t2: Timestamp, earlier: seq<RouteRow>, later: seq<RouteRow>)
    requires t1 + FlushIntervalSeconds * 1_000_000 <= t2
    requires forall i :: 0 <= i < |earlier| ==> earlier[i].time == FloorToMinute(t1)
    requires forall i :: 0 <= i < |later| ==> later[i].time == FloorToMinute(t2)
    ensures FreshBy(earlier, later, RouteRowKey)
  {
    IntervalApartBuckets(t1, t2);
  }

  /** Simulated server failures for the three inserts of an iteration. */
  datatype Faults = Faults(routeInsert: bool, statusInsert: bool, globalInsert: bool)

  /**
   * The three inserts of an iteration, in order; the first failure stops
   * the rest. Each insert that ran either appended all its rows or none.
   */
  method WriteRows(store: MetricStore, routeRows: seq<RouteRow>, statusRows: seq<StatusRow>,
                   global: GlobalRow, faults: Faults)
    returns (failure: Option<DbError>)
    requires store.Valid()
    requires UniqueBy(routeRows, RouteRowKey) && UniqueBy(statusRows, StatusRowKey)
    modifies store
    ensures store.Valid() && store.ready == old(store.ready)
    ensures
      var routeOk := !faults.routeInsert && FreshBy(old(store.routeMetrics), routeRows, RouteRowKey);
      var statusOk := routeOk && !faults.statusInsert && FreshBy(old(store.routeStatusCodes), statusRows, StatusRowKey);
      var globalOk := statusOk && !faults.globalInsert
                      && forall j :: 0 <= j < |old(store.globalMetrics)| ==> old(store.globalMetrics)[j].time != global.time;
      && store.routeMetrics == (if routeOk then old(store.routeMetrics) + routeRows else old(store.routeMetrics))
      && store.routeStatusCodes == (if statusOk then old(store.routeStatusCodes) + statusRows else old(store.routeStatusCodes))
      && store.globalMetrics == (if globalOk then old(store.globalMetrics) + [global] else old(store.globalMetrics))
      && (failure.None? <==> globalOk)
  {
    var outcome := store.InsertRouteMetrics(routeRows, faults.routeInsert);
    if outcome.Failed? {
      return Some(outcome.error);
    }
    outcome := store.InsertRouteStatusCodeMetrics(statusRows, faults.statusInsert);
    if outcome.Failed? {
      return Some(outcome.error);
    }
    outcome := store.InsertGlobalMetrics(global.time, global.totalRequests, global.avgResponseTime,
                                         global.errorRate, faults.globalInsert);
    if outcome.Failed? {
      return Some(outcome.error);
    }
    failure := None;
  }

  /**
   * One iteration after the sleep. `attemptAt`, `clock` and `successAt`
   * are the three readings of the UTC clock; `describe` is `str(error)`.
   * The inserts run in order and the first failure ends the iteration.
   */
  method FlushTick(rec: Recorder, health: FlushHealth, store: MetricStore,
                   attemptAt: Timestamp, clock: Timestamp, successAt: Timestamp,
                   percentile: Percentile, faults: Faults, describe: DbError -> string)
    returns (failure: Option<DbError>)
    requires rec.Valid() && health.Valid() && store.Valid()
    modifies rec, health, store
    ensures rec.Valid() && health.Valid() && store.Valid()
    ensures health.lastAttempt == Some(attemptAt)
    ensures forall r :: r in old(rec.routeOrder) ==> r in old(rec.routeData) && old(rec.routeData)[r] != []
    ensures forall k :: k in old(rec.statusOrder) ==> k in old(rec.statusCounts)
    ensures
      var bucket := FloorToMinute(clock);
      var routeRows := RouteRows(bucket, old(rec.routeOrder), old(rec.routeData), percentile);
      var statusRows := StatusRows(bucket, old(rec.statusOrder), old(rec.statusCounts));
      var global := GlobalSummaryOf(old(rec.count), old(rec.totalTime), old(rec.errors));
      var routeOk := !faults.routeInsert && FreshBy(old(store.routeMetrics), routeRows, RouteRowKey);
      var statusOk := routeOk && !faults.statusInsert && FreshBy(old(store.routeStatusCodes), statusRows, StatusRowKey);
      var globalOk := statusOk && !faults.globalInsert
                      && forall j :: 0 <= j < |old(store.globalMetrics)| ==> old(store.globalMetrics)[j].time != bucket;
      && store.routeMetrics == (if routeOk then old(store.routeMetrics) + routeRows else old(store.routeMetrics))
      && store.routeStatusCodes == (if statusOk then old(store.routeStatusCodes) + statusRows else old(store.routeStatusCodes))
      && store.globalMetrics == (if globalOk
           then old(store.globalMetrics) + [GlobalRow(bucket, global.totalRequests, global.avgResponseTime, global.errorRate)]
           else old(store.globalMetrics))
      && (failure.None? <==> globalOk)
    ensures failure.None? ==>
      && rec.log == [] && rec.count == 0
      && health.successCount == old(health.successCount) + 1 && health.consecutiveFailures == 0
      && health.lastSuccess == Some(successAt) && health.lastError == None
      && health.errorCount == old(health.errorCount)
    ensures failure.Some? ==>
      && rec.log == old(rec.log) && rec.routeData == old(rec.routeData) && rec.routeOrder == old(rec.routeOrder)
      && rec.statusCounts == old(rec.statusCounts) && rec.statusOrder == old(rec.statusOrder)
      && rec.count == old(rec.count) && rec.totalTime == old(rec.totalTime) && rec.errors == old(rec.errors)
      && health.errorCount == old(health.errorCount) + 1
      && health.consecutiveFailures == old(health.consecutiveFailures) + 1
      && health.lastError == Some(describe(failure.value))
      && health.successCount == old(health.successCount) && health.lastSuccess == old(health.lastSuccess)
    ensures store.ready == old(store.ready)
  {
    health.RecordAttempt(attemptAt);
    var routeRows, statusRows, global := BuildRows(rec, FloorToMinute(clock), percentile);
    failure := WriteRows(store, routeRows, statusRows, global, faults);
    if failure.Some? {
      health.RecordError(describe(failure.value));
    } else {
      rec.Reset();
      health.RecordSuccess(successAt);
    }
  }

  /** `summarize()` and the two comprehensions over its result: the rows
      of the bucket `now`, each list key-unique. Changes nothing. */
  method BuildRows(rec: Recorder, now: Timestamp, percentile: Percentile)
    returns (routeRows: seq<RouteRow>, statusRows: seq<StatusRow>, global: GlobalRow)
    requires rec.Valid()
    ensures forall r :: r in rec.routeOrder ==> r in rec.routeData && rec.routeData[r] != []
    ensures forall k :: k in rec.statusOrder ==> k in rec.statusCounts
    ensures routeRows == RouteRows(now, rec.routeOrder, rec.routeData, percentile)
    ensures statusRows == StatusRows(now, rec.statusOrder, rec.statusCounts)
    ensures var g := GlobalSummaryOf(rec.count, rec.totalTime, rec.errors);
      global == GlobalRow(now, g.totalRequests, g.avgResponseTime, g.errorRate)
    ensures UniqueBy(routeRows, RouteRowKey) && UniqueBy(statusRows, StatusRowKey)
  {
    RecorderTotals(rec);
    var summary, routes, statusCopy, g := rec.Summarize(percentile);
    routeRows := seq(|routes|, i requires 0 <= i < |routes| =>
      RouteRowOf(now, routes[i], summary[routes[i]]));
    SummariesAreRouteRows(rec, percentile, now, summary, routeRows);
    var keys := rec.statusOrder;
    statusRows := seq(|keys|, i requires 0 <= i < |keys| =>
      StatusRow(now, keys[i].0, keys[i].1, statusCopy[keys[i]]));
    RouteRowsSpec(now, routes, rec.routeData, percentile);
    KeyOrderSpec(rec.log, StatusKeyOf);
    StatusRowsSpec(now, keys, statusCopy);
    global := GlobalRow(now, g.totalRequests, g.avgResponseTime, g.errorRate);
  }

  /** The comprehension the iteration builds from `summarize()` is the
      route-row list of the recorder's data. */
  lemma SummariesAreRouteRows(rec: Recorder, percentile: Percentile, now: Timestamp,
                              summary: map<string, RouteSummary>, rows: seq<RouteRow>)
    requires rec.Valid()
    requires forall r :: r in summary <==> r in rec.routeOrder
    requires forall r :: r in summary ==> summary[r] == SummaryOf(Durations(rec.log, r), percentile)
    requires |rows| == |rec.routeOrder|
    requires forall i :: 0 <= i < |rows| ==> rows[i] == RouteRowOf(now, rec.routeOrder[i], summary[rec.routeOrder[i]])
    ensures forall r :: r in rec.routeOrder ==> r in rec.routeData && rec.routeData[r] != []
    ensures rows == RouteRows(now, rec.routeOrder, rec.routeData, percentile)
  {
  }
}
