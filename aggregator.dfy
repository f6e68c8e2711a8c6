/**
 * The in-memory request-metrics recorder (`api/metrics/aggregator.py`).
 *
 * The source keeps three module-level containers: a list of durations per
 * route, a counter per (route, status) pair, and global `count`,
 * `total_time` and `errors` counters. Here they are the fields of one
 * `Recorder` object. A ghost `log` holds the observations recorded since the
 * last reset; `Valid()` says that every field is the corresponding function
 * of that log, and the lemmas below prove what those functions promise.
 * Python dictionaries iterate in insertion order, so each map is paired with
 * the sequence of its keys in the order they were first inserted.
 */
module Aggregator {
  import opened Stats

  /** The arguments of one `record(route, duration, status)` call. */
  datatype Observation = Observation(route: string, duration: real, status: int)

  /** A key of `status_counts`. */
  type StatusKey = (string, int)

  function RouteOf(o: Observation): string { o.route }

  function StatusKeyOf(o: Observation): StatusKey { (o.route, o.status) }

  /** A status of 500 or more counts as an error. */
  predicate IsError(status: int) { status >= 500 }

  // ---------------------------------------------------------------------
  // Specification: functions of the observations since the last reset.
  // ---------------------------------------------------------------------

  /** How many observations of `log` have key `k`. */
  function Occurrences<K(==)>(log: seq<Observation>, key: Observation -> K, k: K): nat {
    if log == [] then 0
    else Occurrences(log[..|log| - 1], key, k) + (if key(log[|log| - 1]) == k then 1 else 0)
  }

  /** The distinct keys of `log`, in order of first occurrence. */
  function KeyOrder<K(==)>(log: seq<Observation>, key: Observation -> K): seq<K> {
    if log == [] then []
    else
      var ks := KeyOrder(log[..|log| - 1], key);
      if key(log[|log| - 1]) in ks then ks else ks + [key(log[|log| - 1])]
  }

  /** The durations recorded for `route`, in recording order. */
  function Durations(log: seq<Observation>, route: string): seq<real> {
    if log == [] then []
    else
      var o := log[|log| - 1];
      Durations(log[..|log| - 1], route) + (if o.route == route then [o.duration] else [])
  }

  /** The sum of all recorded durations, accumulated in recording order. */
  function TotalTime(log: seq<Observation>): real {
    if log == [] then 0.0 else TotalTime(log[..|log| - 1]) + log[|log| - 1].duration
  }

  /** The number of recorded observations whose status is an error. */
  function ErrorCount(log: seq<Observation>): nat {
    if log == [] then 0
    else ErrorCount(log[..|log| - 1]) + (if IsError(log[|log| - 1].status) then 1 else 0)
  }

  /** The set of routes that occur in `log`. */
  function Routes(log: seq<Observation>): set<string> {
    set i | 0 <= i < |log| :: log[i].route
  }

  predicate Distinct<K(==)>(ks: seq<K>) {
    forall i, j :: 0 <= i < j < |ks| ==> ks[i] != ks[j]
  }

  /** `sum(Occurrences(log, key, k) for k in ks)`. */
  function OccurrenceSum<K(==)>(ks: seq<K>, log: seq<Observation>, key: Observation -> K): nat {
    if ks == [] then 0
    else OccurrenceSum(ks[..|ks| - 1], log, key) + Occurrences(log, key, ks[|ks| - 1])
  }

  lemma Snoc<T>(s: seq<T>, x: T)
    ensures (s + [x])[..|s|] == s && (s + [x])[|s|] == x
  {
  }

  lemma DurationsSnoc(log: seq<Observation>, o: Observation, route: string)
    ensures Durations(log + [o], route) == Durations(log, route) + (if o.route == route then [o.duration] else [])
  {
    Snoc(log, o);
  }

  lemma OccurrencesSnoc<K>(log: seq<Observation>, o: Observation, key: Observation -> K, k: K)
    ensures Occurrences(log + [o], key, k) == Occurrences(log, key, k) + (if key(o) == k then 1 else 0)
  {
    Snoc(log, o);
  }

  /** The key order lists each key once, and exactly the keys that occur. */
  lemma {:induction false} KeyOrderSpec<K>(log: seq<Observation>, key: Observation -> K)
    ensures Distinct(KeyOrder(log, key))
    ensures forall k :: k in KeyOrder(log, key) <==> Occurrences(log, key, k) > 0
  {
    if log != [] {
      KeyOrderSpec(log[..|log| - 1], key);
    }
  }

  /** Appending one observation adds one to the sum over any list of distinct keys containing its key. */
  lemma {:induction false} OccurrenceSumSnoc<K>(ks: seq<K>, log: seq<Observation>, o: Observation, key: Observation -> K)
    requires Distinct(ks)
    ensures OccurrenceSum(ks, log + [o], key) == OccurrenceSum(ks, log, key) + (if key(o) in ks then 1 else 0)
  {
    Snoc(log, o);
    if ks != [] {
      var init := ks[..|ks| - 1];
      assert Distinct(init);
      OccurrenceSumSnoc(init, log, o, key);
      assert key(o) in ks <==> key(o) in init || key(o) == ks[|ks| - 1];
      assert key(o) == ks[|ks| - 1] ==> key(o) !in init;
    }
  }

  /** Every observation is counted under exactly one key: the per-key counts add up to the number of observations. */
  lemma {:induction false} OccurrencesSumToLength<K>(log: seq<Observation>, key: Observation -> K)
    ensures OccurrenceSum(KeyOrder(log, key), log, key) == |log|
  {
    if log != [] {
      var init, o := log[..|log| - 1], log[|log| - 1];
      assert log == init + [o];
      var ks := KeyOrder(init, key);
      OccurrencesSumToLength(init, key);
      KeyOrderSpec(init, key);
      OccurrenceSumSnoc(ks, init, o, key);
      if key(o) !in ks {
        assert Occurrences(init, key, key(o)) == 0;
        assert (ks + [key(o)])[..|ks|] == ks;
      }
    }
  }

  /** A route's duration list holds one entry per observation of that route. */
  lemma {:induction false} DurationsCount(log: seq<Observation>, route: string)
    ensures |Durations(log, route)| == Occurrences(log, RouteOf, route)
  {
    if log != [] {
      DurationsCount(log[..|log| - 1], route);
    }
  }

  /** Every element of a route's duration list is the duration of an observation of that route. */
  lemma {:induction false} DurationsFromRoute(log: seq<Observation>, route: string, x: real)
    requires x in Durations(log, route)
    ensures exists i :: 0 <= i < |log| && log[i].route == route && log[i].duration == x
  {
    var init := log[..|log| - 1];
    if x in Durations(init, route) {
      DurationsFromRoute(init, route, x);
      var i :| 0 <= i < |init| && init[i].route == route && init[i].duration == x;
      assert log[i] == init[i];
    } else {
      assert log[|log| - 1].route == route && log[|log| - 1].duration == x;
    }
  }

  /** The keys of the route order are exactly the routes that were recorded. */
  lemma {:induction false} RouteOrderIsRoutes(log: seq<Observation>)
    ensures forall r :: r in KeyOrder(log, RouteOf) <==> r in Routes(log)
  {
    if log != [] {
      var init := log[..|log| - 1];
      RouteOrderIsRoutes(init);
      assert Routes(log) == Routes(init) + {log[|log| - 1].route} by {
        forall r | r in Routes(log) ensures r in Routes(init) + {log[|log| - 1].route} {
          var i :| 0 <= i < |log| && log[i].route == r;
          if i < |init| { assert init[i] == log[i]; }
        }
        forall r | r in Routes(init) ensures r in Routes(log) {
          var i :| 0 <= i < |init| && init[i].route == r;
          assert log[i] == init[i];
        }
      }
    }
  }

  /** No more errors than observations. */
  lemma {:induction false} ErrorsAtMostCount(log: seq<Observation>)
    ensures ErrorCount(log) <= |log|
  {
    if log != [] {
      ErrorsAtMostCount(log[..|log| - 1]);
    }
  }

  /** The total time is the sum of the per-route duration sums, taken over the route order. */
  lemma {:induction false} TotalTimeIsRouteSum(log: seq<Observation>)
    ensures TotalTime(log) == RouteTimeSum(KeyOrder(log, RouteOf), log)
  {
    if log != [] {
      var init, o := log[..|log| - 1], log[|log| - 1];
      assert log == init + [o];
      var ks := KeyOrder(init, RouteOf);
      TotalTimeIsRouteSum(init);
      KeyOrderSpec(init, RouteOf);
      RouteTimeSumSnoc(ks, init, o);
      if o.route !in ks {
        DurationsCount(init, o.route);
        assert Durations(init, o.route) == [];
        assert Durations(log, o.route) == [o.duration];
        assert (ks + [o.route])[..|ks|] == ks;
        assert Sum([o.duration]) == Sum([]) + o.duration;
      }
    }
  }

  /** `sum(Sum(Durations(log, r)) for r in rs)`. */
  function RouteTimeSum(rs: seq<string>, log: seq<Observation>): real {
    if rs == [] then 0.0 else RouteTimeSum(rs[..|rs| - 1], log) + Sum(Durations(log, rs[|rs| - 1]))
  }

  lemma {:induction false} RouteTimeSumSnoc(rs: seq<string>, log: seq<Observation>, o: Observation)
    requires Distinct(rs)
    ensures RouteTimeSum(rs, log + [o]) == RouteTimeSum(rs, log) + (if o.route in rs then o.duration else 0.0)
  {
    if rs != [] {
      var init, r := rs[..|rs| - 1], rs[|rs| - 1];
      assert rs == init + [r];
      assert Distinct(init);
      RouteTimeSumSnoc(init, log, o);
      DurationsSnoc(log, o, r);
      assert RouteTimeSum(rs, log + [o]) == RouteTimeSum(init, log + [o]) + Sum(Durations(log + [o], r));
      assert RouteTimeSum(rs, log) == RouteTimeSum(init, log) + Sum(Durations(log, r));
      if o.route == r {
        assert o.route !in init;
        SumSnoc(Durations(log, r), o.duration);
      } else {
        assert o.route in rs <==> o.route in init;
        assert Durations(log + [o], r) == Durations(log, r);
      }
    }
  }

  // ---------------------------------------------------------------------
  // Summaries
  // ---------------------------------------------------------------------

  /** The statistics `summarize` reports for one route. */
  datatype RouteSummary = RouteSummary(
    count: nat, avg: real, min: real, max: real, p50: real, p95: real, p99: real)

  /** The global statistics `summarize` reports. */
  datatype GlobalSummary = GlobalSummary(totalRequests: nat, avgResponseTime: real, errorRate: real)

  /**
   * The percentile function (numpy's interpolating `percentile`) is not
   * modelled: it is a parameter, `percentile(durations, p)`.
   */
  type Percentile = (seq<real>, int) -> real

  /** The summary of one route's non-empty duration list. */
  function SummaryOf(durations: seq<real>, percentile: Percentile): RouteSummary
    requires |durations| > 0
  {
    RouteSummary(
      |durations|, Mean(durations), Min(durations), Max(durations),
      percentile(durations, 50), percentile(durations, 95), percentile(durations, 99))
  }

  /** A route summary counts the durations, reports their minimum and maximum, and its mean lies between them. */
  lemma SummaryOfSpec(durations: seq<real>, percentile: Percentile)
    requires |durations| > 0
    ensures SummaryOf(durations, percentile).count == |durations|
    ensures SummaryOf(durations, percentile).min in durations
    ensures SummaryOf(durations, percentile).max in durations
    ensures forall i :: 0 <= i < |durations| ==>
      SummaryOf(durations, percentile).min <= durations[i] <= SummaryOf(durations, percentile).max
    ensures SummaryOf(durations, percentile).min <= SummaryOf(durations, percentile).avg <= SummaryOf(durations, percentile).max
  {
    MeanBetween(durations);
  }

  /** The global summary; both ratios are 0 when nothing was recorded. */
  function GlobalSummaryOf(count: nat, totalTime: real, errors: nat): GlobalSummary {
    GlobalSummary(
      count,
      if count != 0 then totalTime / (count as real) else 0.0,
      if count != 0 then (errors as real) / (count as real) else 0.0)
  }

  /** The average times the count gives back the total, and the error rate is a fraction in [0, 1]. */
  lemma GlobalSummarySpec(count: nat, totalTime: real, errors: nat)
    requires errors <= count
    ensures var g := GlobalSummaryOf(count, totalTime, errors);
      && g.totalRequests == count
      && (count == 0 ==> g.avgResponseTime == 0.0 && g.errorRate == 0.0)
      && (count > 0 ==> g.avgResponseTime * (count as real) == totalTime)
      && (count > 0 ==> g.errorRate * (count as real) == errors as real)
      && 0.0 <= g.errorRate <= 1.0
  {
    if count > 0 {
      Stats.QuotientBetween(errors as real, count as real, 0.0, 1.0);
    }
  }

  /** `sum(counts[k] for k in ks)`. */
  function CountSum(ks: seq<StatusKey>, counts: map<StatusKey, nat>): nat
    requires forall k :: k in ks ==> k in counts
  {
    if ks == [] then 0 else CountSum(ks[..|ks| - 1], counts) + counts[ks[|ks| - 1]]
  }

  /** `sum(len(data[r]) for r in rs)`. */
  function LengthSum(rs: seq<string>, data: map<string, seq<real>>): nat
    requires forall r :: r in rs ==> r in data
  {
    if rs == [] then 0 else LengthSum(rs[..|rs| - 1], data) + |data[rs[|rs| - 1]]|
  }

  /** `data` with `d` appended to `route`'s list, as a `defaultdict(list)` append does. */
  function AppendDuration(data: map<string, seq<real>>, route: string, d: real): map<string, seq<real>> {
    data[route := (if route in data then data[route] else []) + [d]]
  }

  /** `counts` with one added to `key`'s counter, as a `defaultdict(int)` increment does. */
  function BumpCount(counts: map<StatusKey, nat>, key: StatusKey): map<StatusKey, nat> {
    counts[key := (if key in counts then counts[key] else 0) + 1]
  }

  /** `order` with `k` added at the end unless already present: dictionary key order after an insert. */
  function InsertKey<K(==)>(order: seq<K>, k: K): seq<K> {
    if k in order then order else order + [k]
  }

  /** The route map and its key order are those of `log`. */
  ghost predicate RoutesMatch(data: map<string, seq<real>>, order: seq<string>, log: seq<Observation>) {
    && order == KeyOrder(log, RouteOf)
    && (forall r :: r in data <==> r in order)
    && (forall r :: r in data ==> data[r] == Durations(log, r) && data[r] != [])
  }

  /** The status-count map and its key order are those of `log`. */
  ghost predicate StatusesMatch(counts: map<StatusKey, nat>, order: seq<StatusKey>, log: seq<Observation>) {
    && order == KeyOrder(log, StatusKeyOf)
    && (forall k :: k in counts <==> k in order)
    && (forall k :: k in counts ==> counts[k] == Occurrences(log, StatusKeyOf, k))
  }

  lemma RoutesMatchSnoc(data: map<string, seq<real>>, order: seq<string>, log: seq<Observation>, o: Observation)
    requires RoutesMatch(data, order, log)
    ensures RoutesMatch(AppendDuration(data, o.route, o.duration), InsertKey(order, o.route), log + [o])
  {
    Snoc(log, o);
    var data' := AppendDuration(data, o.route, o.duration);
    forall r | r in data'
      ensures data'[r] == Durations(log + [o], r)
    {
      DurationsSnoc(log, o, r);
      if r == o.route && r !in data {
        KeyOrderSpec(log, RouteOf);
        DurationsCount(log, r);
      }
    }
  }

  lemma StatusesMatchSnoc(counts: map<StatusKey, nat>, order: seq<StatusKey>, log: seq<Observation>, o: Observation)
    requires StatusesMatch(counts, order, log)
    ensures StatusesMatch(BumpCount(counts, StatusKeyOf(o)), InsertKey(order, StatusKeyOf(o)), log + [o])
  {
    Snoc(log, o);
    var counts' := BumpCount(counts, StatusKeyOf(o));
    forall k | k in counts'
      ensures counts'[k] == Occurrences(log + [o], StatusKeyOf, k)
    {
      OccurrencesSnoc(log, o, StatusKeyOf, k);
      if k == StatusKeyOf(o) && k !in counts {
        KeyOrderSpec(log, StatusKeyOf);
      }
    }
  }

  /** The loop of `summarize` over the route map, in its key order. */
  method SummarizeRoutes(order: seq<string>, data: map<string, seq<real>>, percentile: Percentile)
    returns (summary: map<string, RouteSummary>)
    requires forall r :: r in order ==> r in data && data[r] != []
    ensures forall r :: r in summary <==> r in order
    ensures forall r :: r in summary ==> summary[r] == SummaryOf(data[r], percentile)
  {
    summary := map[];
    for i := 0 to |order|
      invariant forall r :: r in summary <==> r in order[..i]
      invariant forall r :: r in summary ==> r in order && summary[r] == SummaryOf(data[r], percentile)
    {
      var route := order[i];
      var durations := data[route];
      summary := summary[route := SummaryOf(durations, percentile)];
    }
    assert order[..|order|] == order;
  }

  // ---------------------------------------------------------------------
  // The recorder
  // ---------------------------------------------------------------------

  class Recorder {
    /** `route_data`: route -> durations, with its keys in insertion order. */
    var routeData: map<string, seq<real>>
    var routeOrder: seq<string>
    /** `status_counts`: (route, status) -> count, with its keys in insertion order. */
    var statusCounts: map<StatusKey, nat>
    var statusOrder: seq<StatusKey>
    /** `global_data`. */
    var count: nat
    var totalTime: real
    var errors: nat
    /** The observations recorded since the last reset. */
    ghost var log: seq<Observation>

    ghost predicate Valid()
      reads this
    {
      && RoutesMatch(routeData, routeOrder, log)
      && StatusesMatch(statusCounts, statusOrder, log)
      && count == |log|
      && totalTime == TotalTime(log)
      && errors == ErrorCount(log)
    }

    /** The module's initial state: everything empty and zero. */
    constructor ()
      ensures Valid() && log == []
      ensures routeData == map[] && statusCounts == map[]
      ensures count == 0 && totalTime == 0.0 && errors == 0
    {
      routeData, routeOrder := map[], [];
      statusCounts, statusOrder := map[], [];
      count, totalTime, errors := 0, 0.0, 0;
      log := [];
    }

    /** `record(route, duration, status)`. */
    method Record(route: string, duration: real, status: int)
      requires Valid()
      modifies this
      ensures Valid()
      ensures log == old(log) + [Observation(route, duration, status)]
      ensures routeData == AppendDuration(old(routeData), route, duration)
      ensures statusCounts == BumpCount(old(statusCounts), (route, status))
      ensures count == old(count) + 1
      ensures totalTime == old(totalTime) + duration
      ensures errors == old(errors) + (if IsError(status) then 1 else 0)
    {
      var o := Observation(route, duration, status);
      RoutesMatchSnoc(routeData, routeOrder, log, o);
      StatusesMatchSnoc(statusCounts, statusOrder, log, o);
      Snoc(log, o);

      // route_data[route].append(duration)
      routeOrder := InsertKey(routeOrder, route);
      routeData := AppendDuration(routeData, route, duration);

      // status_counts[(route, status)] += 1
      statusOrder := InsertKey(statusOrder, (route, status));
      statusCounts := BumpCount(statusCounts, (route, status));

      count := count + 1;
      totalTime := totalTime + duration;
      if IsError(status) {
        errors := errors + 1;
      }
      log := log + [o];
    }

    /**
     * `summarize()`: one summary per recorded route (with the route order),
     * a copy of the status counts and the global summary. Changes nothing.
     */
    method Summarize(percentile: Percentile)
      returns (summary: map<string, RouteSummary>, routes: seq<string>,
               statusCopy: map<StatusKey, nat>, global: GlobalSummary)
      requires Valid()
      ensures routes == routeOrder && Distinct(routes)
      ensures forall r :: r in summary <==> r in Routes(log)
      ensures forall r :: r in summary <==> r in routes
      ensures forall r :: r in summary ==> summary[r] == SummaryOf(Durations(log, r), percentile)
      ensures statusCopy == statusCounts
      ensures global == GlobalSummaryOf(|log|, TotalTime(log), ErrorCount(log))
    {
      KeyOrderSpec(log, RouteOf);
      RouteOrderIsRoutes(log);
      summary := SummarizeRoutes(routeOrder, routeData, percentile);
      routes := routeOrder;
      statusCopy := statusCounts;
      global := GlobalSummaryOf(count, totalTime, errors);
    }

    /** `reset()`: clears both maps and zeroes the three globals. */
    method Reset()
      requires Valid()
      modifies this
      ensures Valid() && log == []
      ensures routeData == map[] && routeOrder == []
      ensures statusCounts == map[] && statusOrder == []
      ensures count == 0 && totalTime == 0.0 && errors == 0
    {
      routeData, routeOrder := map[], [];
      statusCounts, statusOrder := map[], [];
      count, totalTime, errors := 0, 0.0, 0;
      log := [];
    }
  }

  /**
   * The three global tallies agree: the status counts add up to the request
   * count, so do the route list lengths, there are no more errors than
   * requests, and the total time is the sum of all route durations.
   */
  lemma RecorderTotals(rec: Recorder)
    requires rec.Valid()
    ensures forall k :: k in rec.statusOrder ==> k in rec.statusCounts
    ensures forall r :: r in rec.routeOrder ==> r in rec.routeData
    ensures CountSum(rec.statusOrder, rec.statusCounts) == rec.count
    ensures LengthSum(rec.routeOrder, rec.routeData) == rec.count
    ensures rec.errors <= rec.count
    ensures rec.totalTime == RouteTimeSum(rec.routeOrder, rec.log)
  {
    OccurrencesSumToLength(rec.log, StatusKeyOf);
    OccurrencesSumToLength(rec.log, RouteOf);
    CountSumIsOccurrenceSum(rec.statusOrder, rec.statusCounts, rec.log);
    LengthSumIsOccurrenceSum(rec.routeOrder, rec.routeData, rec.log);
    ErrorsAtMostCount(rec.log);
    TotalTimeIsRouteSum(rec.log);
  }

  lemma {:induction false} CountSumIsOccurrenceSum(ks: seq<StatusKey>, counts: map<StatusKey, nat>, log: seq<Observation>)
    requires forall k :: k in ks ==> k in counts && counts[k] == Occurrences(log, StatusKeyOf, k)
    ensures CountSum(ks, counts) == OccurrenceSum(ks, log, StatusKeyOf)
  {
    if ks != [] {
      CountSumIsOccurrenceSum(ks[..|ks| - 1], counts, log);
    }
  }

  lemma {:induction false} LengthSumIsOccurrenceSum(rs: seq<string>, data: map<string, seq<real>>, log: seq<Observation>)
    requires forall r :: r in rs ==> r in data && data[r] == Durations(log, r)
    ensures LengthSum(rs, data) == OccurrenceSum(rs, log, RouteOf)
  {
    if rs != [] {
      LengthSumIsOccurrenceSum(rs[..|rs| - 1], data, log);
      DurationsCount(log, rs[|rs| - 1]);
    }
  }
}
