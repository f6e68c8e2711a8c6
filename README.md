# Linux-API request metrics and service core, in Dafny

Linux-API is a FastAPI service. It reports on the Linux host it runs on: uptime, processes, users and load. It keeps API users with permission flags in PostgreSQL, and it measures its own traffic.

This project models the parts of the service that compute or keep state.

**Request-metrics pipeline**
- The metrics middleware times every request. It reduces the route to a safe alphabet and records (route, duration, status).
- The in-memory aggregator keeps three things:
  - per-route duration lists;
  - per-(route, status) counters;
  - global count, total time and 5xx-error counters.
- Once a minute, the flush worker does the following:
  - summarises the aggregator;
  - stamps the rows with the minute bucket;
  - writes route rows, then status rows, then the global row;
  - resets the aggregator only when all three inserts succeed;
  - records the outcome in a health tracker.
- The metric database builds its read statements by appending `%s` conditions and their parameters. Each insert rolls back and re-raises on failure.
- The request models validate what a metrics query may ask for: limits, offsets, routes, status codes and time ranges.

**Load monitors**
- The current monitor and the older one each sample once a minute.
- They answer "last n samples" and average queries from cached values.

**System information, configuration, users and guards**
- The uptime split, the process listing and the user lookup. The uptime split appears in three files (api/utils/get_system_infos.py, core_functions/infos.py and infos.py); it is modelled once.
- The `key=value` configuration loader.
- The user database's username sanitiser, permission update and delete-user guard.
- The readiness guard, the authentication guards, the toy API-key check of the stand-alone server, and the startup backup/migration decision.

**What is a parameter or a value**
- Clocks, psutil, pwd, the environment, the file system and the database server are parameters of the model. A database round trip that may fail is a boolean fault flag; three round trips of the user database always fail as deployed, and the model states both that and what the code does when they work.
- Durations, loads and averages are `real`. numpy's percentiles and Python's `round` are uninterpreted function parameters.
- Timestamps are integer microseconds since the Unix epoch.
- Python dictionaries that are iterated keep their insertion order as a key sequence beside the map.

**How each part is modelled**
- Code that changes state in place is a class whose methods say their whole new state. This covers the aggregator, the health tracker, the metric store, the load monitors, the configuration loader and the user store.
- The aggregator's invariant ties its fields to a ghost log of every observation since the last reset. The totals the source promises are proved as lemmas about that log.
- Code that only decides is a function with its contract, or a lemma beside it. This covers the validators, the guards, the readiness check, the startup decision and the uptime split.

## Model

| member | source | states |
|---|---|---|
| Aggregator.Recorder.constructor | api/metrics/aggregator.py:4-11 | A fresh recorder has no routes, no status counters, and zero count, total time and errors. |
| Aggregator.Recorder.Record | api/metrics/aggregator.py:13-20 | Appends the duration to that route's list (creating it at the end of the route order if new). Adds 1 to the (route, status) counter. Adds 1 to the count and the duration to the total time. Adds 1 to errors exactly when status >= 500. The invariant tying every field to the log is kept. |
| Aggregator.Recorder.Summarize | api/metrics/aggregator.py:23-53 | Changes nothing. Its route summary has exactly the routes recorded since the last reset, each summarising that route's durations. The status map returned is equal to the counters. The global summary is computed from the log's length, total time and error count. |
| Aggregator.SummarizeRoutes | api/metrics/aggregator.py:26-37 | The summary loop: one entry per route of the key order and no other, each the summary of that route's durations. |
| Aggregator.Recorder.Reset | api/metrics/aggregator.py:56-59 | Empties both maps and their key orders, and zeroes count, total time and errors (the log becomes empty). |
| Aggregator.RecorderTotals | api/metrics/aggregator.py:13-20 | In every valid recorder: the status counters sum to the count; the route-list lengths sum to the count; errors <= count; total time is the sum of all recorded durations. |
| Aggregator.SummaryOfSpec | api/metrics/aggregator.py:26-37 | A route summary's count is the number of durations, min and max are durations bounding all others, and min <= avg <= max. |
| Aggregator.GlobalSummarySpec | api/metrics/aggregator.py:39-51 | total_requests is the count; avg times count is the total time and error_rate times count is the error count; both are 0 when count is 0; error_rate lies in [0, 1]. |
| Aggregator.KeyOrderSpec | api/metrics/aggregator.py:14-15 | The insertion order of dictionary keys has no duplicates and holds exactly the keys that occur in the log. |
| Aggregator.RouteOrderIsRoutes | api/metrics/aggregator.py:14-26 | The route order the summary iterates holds exactly the routes recorded. |
| Aggregator.OccurrencesSumToLength | api/metrics/aggregator.py:15-17 | Summing the occurrences of every key in the key order gives the number of observations. |
| Aggregator.DurationsCount | api/metrics/aggregator.py:14-30 | A route's duration list is as long as the number of observations on that route. |
| Aggregator.DurationsFromRoute | api/metrics/aggregator.py:14 | Every duration in a route's list came from an observation on that route. |
| Aggregator.ErrorsAtMostCount | api/metrics/aggregator.py:19-20 | The number of 5xx observations never exceeds the number of observations. |
| Aggregator.TotalTimeIsRouteSum | api/metrics/aggregator.py:14-18 | The global total time equals the sum over routes of the sums of their durations. |
| Aggregator.CountSumIsOccurrenceSum | api/metrics/aggregator.py:15 | Counters that agree with the log sum to the log's occurrence total. |
| Aggregator.LengthSumIsOccurrenceSum | api/metrics/aggregator.py:14 | Duration lists that agree with the log have lengths summing to the log's occurrence total. |
| Health.FlushHealth.constructor | api/metrics/health.py:5-12 | Zero counters, and no last error, success or attempt. |
| Health.FlushHealth.RecordSuccess | api/metrics/health.py:14-18 | success_count + 1, consecutive failures 0, last success = now, last error cleared; error_count and last attempt unchanged; keeps consecutive_failures <= error_count. |
| Health.FlushHealth.RecordError | api/metrics/health.py:20-23 | error_count + 1, consecutive failures + 1, last error = the message; success fields unchanged; keeps the invariant. |
| Health.FlushHealth.RecordAttempt | api/metrics/health.py:25-26 | Sets only the last attempt. |
| Health.FlushHealth.ErrorRate | api/metrics/health.py:28-30 | In [0, 1]; 0 when there were no outcomes; times the total it gives error_count; 1 iff only errors; 0 iff no errors. |
| FlushWorker.FloorToMinute | api/metrics/flush_worker.py:24 | The bucket is a whole minute at or before the time and less than a minute before it. |
| FlushWorker.FloorToMinuteSpec | api/metrics/flush_worker.py:24 | Flooring is idempotent and monotone, and two times share a bucket iff they lie in the same minute. |
| FlushWorker.IntervalApartBuckets | api/metrics/flush_worker.py:14-24 | Two iterations a flush interval (60 s) apart never share a bucket. |
| FlushWorker.RouteRowsSpec | api/metrics/flush_worker.py:27-40 | One route row per summarised route, in summary order, all in the same bucket, naming the route, with the route's request count and min <= avg <= max. Distinct routes give rows with distinct primary keys. |
| FlushWorker.StatusRowsSpec | api/metrics/flush_worker.py:44-47 | One status row per (route, status) key, in key order, carrying that key's count and the bucket. Distinct keys give distinct primary keys. |
| FlushWorker.RequestSumIsLengthSum | api/metrics/flush_worker.py:27-40 | The route rows' request counts add up to the total length of the duration lists. |
| FlushWorker.StatusCountSumIsCountSum | api/metrics/flush_worker.py:44-47 | The status rows' counts add up to the counters' sum. |
| FlushWorker.FlushCoversEveryRequest | api/metrics/flush_worker.py:23-47 | For any valid recorder, both the route rows and the status rows account for every recorded request exactly once. |
| FlushWorker.LaterIterationFresh | api/metrics/flush_worker.py:14-41 | Rows written by an iteration at least one flush interval later never clash on the primary key with earlier rows. |
| FlushWorker.BuildRows | api/metrics/flush_worker.py:23-51 | Changes nothing. It returns the route rows, status rows and global row of the bucket, and each row list is unique on its key. |
| FlushWorker.SummariesAreRouteRows | api/metrics/flush_worker.py:23-40 | Building rows from the summary that Summarize returns gives exactly RouteRows over the recorder's data. |
| FlushWorker.WriteRows | api/metrics/flush_worker.py:41-51 | Route insert, then status insert, then global insert. The first failure stops the rest. Each insert that ran appended all of its rows or none. |
| FlushWorker.FlushTick | api/metrics/flush_worker.py:20-60 | Records the attempt first, then writes the three inserts in order. On success it resets the recorder and records a success. On any failure it leaves the recorder untouched (so the same data is sent again next time) and records the error. Exactly one of success and error is recorded. |
| MetricsMiddleware.SanitizeRouteSpec | api/middleware/metrics.py:20 | The sanitised route holds only `[a-zA-Z0-9/_.-]` (so no NUL). It keeps exactly the allowed characters, in order. It distributes over concatenation, is idempotent, and leaves an allowed route unchanged. |
| MetricsMiddleware.Handle | api/middleware/metrics.py:13-31 | A normal response records (route key, elapsed time, status) once; the route key is the template path if matched, else the URL path, sanitised. A raising endpoint records nothing and ends in the unbound-route error. |
| MetricsMiddleware.HandleIntended | api/middleware/metrics.py:13-31 | Every request is recorded exactly once; a raising endpoint is recorded with status 500, counts as an error, and its exception propagates. |
| MetricDatabase.MetricStore.constructor | api/database/metric_database/metric_database.py:22-25 | Empty tables, not ready. |
| MetricDatabase.MetricStore.InitDb | api/database/metric_database/metric_database.py:27-39 | Ready exactly when no migration is pending; returns the flag; tables unchanged. |
| MetricDatabase.MetricStore.IsReady | api/database/metric_database/metric_database.py:269-275 | As written: False when not initialised, otherwise the missing pool method raises; it never answers True. |
| MetricDatabase.MetricStore.IsReadyIntended | api/database/metric_database/metric_database.py:269-275 | True iff the database is initialised and the pool is healthy. |
| MetricDatabase.MetricStore.InsertRouteMetrics | api/database/metric_database/metric_database.py:41-53 | Commits all rows iff no server error and no row clashes on (time, route) with the table or with another row; otherwise rolls back (table unchanged) and re-raises; other tables unchanged; primary keys kept. |
| MetricDatabase.MetricStore.InsertRouteStatusCodeMetrics | api/database/metric_database/metric_database.py:115-127 | The same all-or-nothing insert on the key (time, route, status_code). |
| MetricDatabase.MetricStore.InsertGlobalMetrics | api/database/metric_database/metric_database.py:191-208 | One row (bucket, total requests, avg, error rate), committed iff no server error and no existing row at that time; otherwise rolled back and re-raised. |
| MetricDatabase.UniqueAppend | api/database/models/metrics.py:9-10 | Appending a key-unique batch whose keys are new keeps the table key-unique. |
| MetricDatabase.FilterPieces | api/database/metric_database/metric_database.py:85-100 | The conditions of n filters carry exactly n placeholders. |
| MetricDatabase.PagedTail | api/database/metric_database/metric_database.py:171-175 | `ORDER BY … DESC` iff newest first (else ASC), then `LIMIT %s OFFSET %s`: exactly two placeholders. |
| MetricDatabase.AddCondition | api/database/metric_database/metric_database.py:85-87 | Appending a condition keeps the statement and the parameter list in step: the statement gains the filter's text and the list its value, or neither when the value is falsy. |
| MetricDatabase.GetRouteMetrics | api/database/metric_database/metric_database.py:77-106 | Placeholders equal parameters. The parameters are the truthy filters in the order route, start, end, cursor, then limit. The statement ends in `ORDER BY time DESC LIMIT %s`. |
| MetricDatabase.GetRouteStatusCodeMetrics | api/database/metric_database/metric_database.py:143-175 | Placeholders equal parameters. The parameters are route, status code, start, end (truthy ones only), then limit and offset. |
| MetricDatabase.GetGlobalMetrics | api/database/metric_database/metric_database.py:232-256 | Placeholders equal parameters. Only time filters are used, then limit and offset. |
| MetricDatabase.SelectsConcat | api/database/metric_database/metric_database.py:85-100 | A conjunction of conditions selects a row iff each part does. |
| MetricDatabase.SelectsCond | api/database/metric_database/metric_database.py:85-100 | One condition selects a row iff its value was omitted or the row's column compares as stated. |
| MetricDatabase.RouteMetricsWhere | api/database/metric_database/metric_database.py:85-100 | A route row is selected iff it matches the given route, start <= time, time <= end and time < cursor: start and end are inclusive, the cursor is strict, and omitted filters do not constrain. |
| MetricDatabase.StatusCodeTimeColumnMissing | api/database/metric_database/metric_database.py:163-172 | As written, the time conditions and the ordering name `time_bucket`, a column the status table does not have. |
| MetricDatabase.StatusCodeWhere | api/database/metric_database/metric_database.py:155-169 | With the time column named `time`, a status row is selected iff it matches the given route and status code and lies in the inclusive range. |
| MetricDatabase.GlobalTimeColumnMissing | api/database/metric_database/metric_database.py:244-253 | As written, the global time conditions name `time_bucket`, which the global table does not have. |
| MetricDatabase.GlobalWhere | api/database/metric_database/metric_database.py:244-250 | With the time column named `time`, a global row is selected iff it lies in the inclusive range. |
| MetricRequests.ValidateGlobal | api/models/metrics.py:11-53 | Accepted iff limit in [1, 1000], offset >= 0, no time is in the future, and start <= end when both are given; an accepted request is returned unchanged; rejections carry at least one error; a naive datetime is a comparison error. |
| MetricRequests.ValidateRouteMetrics | api/models/metrics.py:55-107 | Accepted iff the stripped route starts with '/' and has at most 255 characters, limit is in [1, 1000], no time is in the future, start <= end, and cursor >= start (each pairwise check only when both are given); the accepted request carries the stripped route. |
| MetricRequests.ValidateStatusCode | api/models/metrics.py:109-167 | Accepted iff the route rule holds, status_code is in [100, 599], limit is in [1, 1000], offset >= 0, no time is in the future, and start <= end; the accepted request carries the stripped route. |
| MetricRequests.AcceptedStatusCodeIsTruthy | api/models/metrics.py:118-124 | An accepted status code is never 0, so the statement builder's truthiness test never drops it. |
| MetricRequests.AcceptedRouteIsTruthy | api/models/metrics.py:56-62 | An accepted route is non-empty, starts with '/' and is at most 255 characters long. |
| LoadMonitor.LastSelectionSpec | api/services/load_monitor.py:40-44 | For n None or n > len, every sample. For 0 < n <= len, the last n in order. For n == 0, every sample (the `[-0:]` quirk). For negative n, the first -n samples are dropped. |
| Common.NegSliceSpec | api/services/load_monitor.py:44 | Python's `xs[-n:]` for every integer n. |
| LoadMonitor.LoadMonitor.constructor | api/services/load_monitor.py:8-20 | Empty sample lists, no cached averages, running. |
| LoadMonitor.LoadMonitor.RunStep | api/services/load_monitor.py:22-38 | While running: appends one system load and one CPU percentage and clears both caches. When stopped: changes nothing. |
| LoadMonitor.LoadMonitor.Stop | api/services/load_monitor.py:33-34 | Clears `running` only. |
| LoadMonitor.LoadMonitor.IsReady | api/services/load_monitor.py:77-78 | Ready iff the thread is alive and running. |
| LoadMonitor.LoadMonitor.GetLastSystemLoads | api/services/load_monitor.py:40-44 | The last-n selection of the system loads. |
| LoadMonitor.LoadMonitor.GetLastCpuLoads | api/services/load_monitor.py:59-63 | The last-n selection of the CPU percentages, each divided by 100. |
| LoadMonitor.LoadMonitor.GetAverageSystemLoad | api/services/load_monitor.py:46-57 | The cache if set, whatever n is. Otherwise NoAverageSystemLoad for an empty selection, else the selection's mean: between its min and max, and cached. The samples never change. |
| LoadMonitor.LoadMonitor.GetAverageCpuLoad | api/services/load_monitor.py:65-75 | NoAverageCpuLoad iff there are no samples, else the mean of all raw percentages (between min and max), which is cached. |
| LegacyLoadMonitor.LegacyLoadMonitor.constructor | core_functions/load_monitor.py:7-17 | Empty lists, no cache, running. |
| LegacyLoadMonitor.LegacyLoadMonitor.RunStep | core_functions/load_monitor.py:19-28 | While running: appends one load and one per-CPU list and clears the cache. |
| LegacyLoadMonitor.LegacyLoadMonitor.Stop | core_functions/load_monitor.py:54-55 | Clears `running` and changes nothing else. |
| LegacyLoadMonitor.LegacyLoadMonitor.GetLastLoads | core_functions/load_monitor.py:30-34 | The last-n selection, each load rounded to two places. |
| LegacyLoadMonitor.LegacyLoadMonitor.GetAverage | core_functions/load_monitor.py:36-48 | The cache if set, whatever n is. Otherwise 0.0 (not cached) for an empty selection. Otherwise the rounded mean of the rounded selection, which is cached. |
| LegacyLoadMonitor.LegacyLoadMonitor.GetAverageCpuLoad | core_functions/load_monitor.py:50-52 | None iff there are no samples. ZeroDivisionError iff the first per-CPU list is empty. Otherwise the rounded mean of the first (oldest) per-CPU list only. |
| Uptime.TruncToInt | infos.py:29 | `int()` of a float truncates toward zero (the same line is core_functions/infos.py:34 and api/utils/get_system_infos.py:62). |
| Uptime.Decompose | core_functions/infos.py:35-45 | hours < 24, minutes < 60 and seconds < 60, all non-negative. The parts recompose to the total, which is returned as full_seconds. days is the floor quotient by 86400, non-negative for non-negative uptime. The same three divmods are infos.py:30-40 and api/utils/get_system_infos.py:64-73. |
| Uptime.DecomposeUnique | api/utils/get_system_infos.py:64-66 | Any split meeting those bounds that recomposes to the total is the divmod split. |
| Uptime.GetSystemUptime | api/utils/get_system_infos.py:60-74 | The split of the truncated uptime; for now >= boot, days >= 0 and full_seconds is the whole seconds elapsed. |
| SystemInfos.Get | api/utils/get_system_infos.py:44-46 | `dict.get`: the value iff the key is present, else None. |
| SystemInfos.ListProcesses | api/utils/get_system_infos.py:39-49 | One entry per process, in iteration order, each with exactly the keys pid, name and status, holding that process's values (or None). |
| SystemInfos.GetSystemUserInfos | api/utils/get_system_infos.py:90-109 | True with a one-key dict keyed by the username holding the pwd fields iff the user exists; None with {} for an unknown user; False with {} on any other error. |
| Common.StripSlice | core_functions/config.py:22 | `strip()` removes exactly the leading and trailing white space: the result is a slice whose outside is all white space. |
| ConfigLoader.FirstIndex | core_functions/config.py:29 | The index of the first occurrence of the separator. |
| ConfigLoader.SplitLineShape | core_functions/config.py:29 | A parsed key contains no '=': the line splits at its first '=', so further '=' stay in the value. |
| ConfigLoader.ParseLookup | core_functions/config.py:21-30 | A key is in the dictionary iff some line defines it, and its value comes from the last line that defines it. Blank, comment and '='-less lines define nothing. |
| ConfigLoader.ParseStep | core_functions/config.py:21-30 | Reading one more line applies exactly that line's entry. |
| ConfigLoader.ReadEntries | core_functions/config.py:21-30 | The loop over the lines builds exactly the parsed dictionary. |
| ConfigLoader.Loader.constructor | core_functions/config.py:9-12 | Loads the file at construction. |
| ConfigLoader.Loader.LoadConfig | core_functions/config.py:14-33 | The dictionary of the file's entries; empty when the file is missing or unreadable. |
| ConfigLoader.Loader.Get | core_functions/config.py:35-58 | File value first; then the environment, only when fallback is on; then the default. |
| ConfigLoader.Loader.GetBool | core_functions/config.py:60-73 | True iff the lowercased looked-up value is "true", "1" or "yes". A key found nowhere gives the default. |
| UserDatabase.SanitizeUsername | api/database/user_database/user_database.py:87-96 | No longer than the input, and only `[a-z0-9_]`. |
| UserDatabase.SanitizeUsernameSpec | api/database/user_database/user_database.py:95-96 | Keeps the allowed characters in order, lower-cased (distributes over concatenation). It is idempotent, and a name already clean is unchanged. |
| UserDatabase.ActiveAdminsWithout | api/database/user_database/user_database.py:262-268 | Deleting one user removes at most that user from the active admins. |
| UserDatabase.UserStore.constructor | api/database/models/user.py:27-35 | Sets up a store whose invariant holds: every permission row references a user row, and deleting the user deletes it. |
| UserDatabase.UserStore.GetUserRecord | api/database/user_database/user_database.py:177-212 | The row iff it exists and the query succeeds. A missing row, like any failure, surfaces as UserRecordReadError. |
| UserDatabase.UserStore.GetUserPermRecord | api/database/user_database/user_database.py:214-248 | The permission row iff it exists and the read succeeds, else UserPermReadError; a missing row is caught and re-raised as UserPermReadError too. As deployed the read always fails (see Left out). |
| UserDatabase.UserStore.GetAdminCount | api/database/user_database/user_database.py:250-275 | The number of users that are both admin and activated, or 0 if the query fails. As deployed it always fails and gives 0 (see Left out). |
| UserDatabase.UserStore.DeleteUserRecord | api/database/user_database/user_database.py:98-134 | Removes the user and its permission row iff it exists and the statement succeeds; otherwise nothing changes and UserDeletionError is raised. As deployed the statement always fails (see Left out). |
| UserDatabase.UserStore.SetUserPermRecord | api/database/user_database/user_database.py:319-367 | Both flags false: True with no write. Otherwise it updates the row, or raises UserPermEditError (nothing written) when the row is missing or the update fails. |
| UserDatabase.UserStore.DeleteUser | api/database/user_database/user_database.py:405-432 | As written: the result follows the outcome function on the old state, and the store changes only when True is returned. Under the deployed faults that is never (DeleteUserDeployed). |
| UserDatabase.DeleteUserAsWritten | api/database/user_database/user_database.py:421-432 | Only a non-admin is ever deleted. UserNotFoundError (404) never surfaces. A failed admin count, which is every count as deployed, refuses every admin. None is returned exactly for an admin while more than one active admin is counted, a case only a working count reaches. |
| UserDatabase.DeleteUserCounterexamples | api/database/user_database/user_database.py:421-432 | Two active admins a and b: as deployed, deleting a ends in UserPermReadError; with a working permission read and count it answers None (HTTP 500) where the documented behaviour deletes. An unknown user answers UserRecordReadError (500) where 404 is documented. |
| UserDatabase.DeleteUserDeployed | api/database/user_database/user_database.py:405-432 | With the deployed round trips, deleting never succeeds and never answers None: an existing user (read succeeding) gives UserPermReadError, anything else UserRecordReadError, and the endpoint answers 500. |
| UserDatabase.DeleteStatus | api/routers/v1/user_router.py:61-88 | 200 iff True; 403 iff LastAdminError; 404 iff UserNotFoundError; 500 otherwise (a None result included). |
| UserDatabase.UserStore.DeleteUserIntended | api/database/user_database/user_database.py:405-420 | As documented: a missing user or permission row is UserNotFoundError, and an admin is deleted when more than one active admin is counted. The store changes only on True. |
| UserDatabase.DeleteKeepsAnAdmin | api/database/user_database/user_database.py:418-427 | A successful documented deletion never leaves a system that had an active admin without one. |
| Readiness.DisplayName | api/utils/check_class_readiness.py:52 | The given name unless it is missing or empty, else the class name. |
| Readiness.EnsureClassReady | api/utils/check_class_readiness.py:46-75 | A missing or non-callable checker gives 501 "<name> has no '<check>()' method". A tuple gives readiness from its first item and the message from its second, if any. Any other value gives readiness from its truthiness. Not ready gives 503 "<name> not ready", with ": message" only for a truthy message. Ready iff the value is truthy. An empty tuple gives IndexError. A readiness method that raises has its exception propagated. |
| Readiness.MetricsRouterGuard | api/routers/v1/metrics_router.py:26-32 | With the metric database's `is_ready` as written, the guard before every metrics endpoint never passes: an initialised store's AttributeError propagates, and an uninitialised one gives 503 "MetricDatabase not ready". |
| Auth.CurrentUserPermFromApiKey | api/auth/auth.py:24-34 | Authorized with the record iff one is returned. An empty key gives 400, an unknown key 401, and every other failure, a falsy record included, 500. |
| Auth.CurrentAdminPerm | api/auth/auth.py:36-44 | A non-admin gets 403 "Admin access required" before activation is checked. A non-activated admin gets 403 "API key has to be activated". Otherwise the record is returned unchanged. |
| Auth.CurrentUserPerm | api/auth/auth.py:46-52 | Only activation is checked; otherwise the record is returned unchanged. |
| Auth.GuardsRelated | api/auth/auth.py:36-52 | Every refusal is 403. The admin guard passes only records the user guard passes. The user guard ignores the admin flag. |
| ApiKeyServer.VerifyApiKey | server.py:28-34 | An unknown key gives 401. A required "admin" with a non-admin key gives 403. Otherwise the stored role is returned; only the "admin" requirement is checked. |
| ApiKeyServer.BuiltInKeys | server.py:23-34 | On the fixed table, a "user" requirement accepts both keys, and only the admin key passes an "admin" requirement. |
| Startup.StartupDatabase | api/database/startup.py:17-26 | The migration state is queried once, first. Migrate iff a migration is needed and auto-migration is on. Backup iff backup-at-startup, or (needed and backup-before-migration and auto-migration). Any backup precedes any migration. |
| Startup.ShippedConfigBacksUpFirst | api/config/config.py:71-74 | With the shipped flags, every migration is preceded by a backup, and nothing runs when no migration is needed. |

## Left out

- Percentiles (p50/p95/p99) and Python's `round`: floating-point interpolation and rounding. They are function parameters of the model, so only their placement in rows and results is stated.
- Floating point in general: durations, loads and averages are exact reals.
- Concurrency: the asyncio flush loop, the sampling threads and any interleaving of `record` with `summarize`/`reset`. Each is one tick or step; `sleep` is not modelled.
- SQL execution, psycopg and the connection pool are not part of this model. Each statement's effect on the tables is a modelled transaction with a fault flag. Query results (`fetchall`) are not modelled: the read builders model the statement and its parameters, and the row selection is stated separately.
- FlushWorker.FlushTick: an exception from `summarize` or from building rows is not modelled. Those steps cannot fail in the model.
- The route-metrics insert names nine columns. The ORM class in api/database/models/metrics.py still lists a tenth (tdigest), but the migrations add it and later drop it, so the migrated table has exactly the nine inserted columns, which are the model's row.
- Transactions: each metric insert runs on its own pooled connection, which commits when its block exits cleanly, and the model treats each as its own transaction. So after a failed status or global insert, the route rows of that iteration stay committed while the recorder is not reset. The next iteration writes the same requests again under a new bucket (LaterIterationFresh shows that its keys do not clash), so those requests are counted twice in the tables. This consequence is modelled, not prevented.
- MetricRequests.ValidateGlobal, MetricRequests.ValidateRouteMetrics, MetricRequests.ValidateStatusCode: pydantic's type coercion and the exact error messages of the framework are not modelled. Errors are a list of (field, reason). The `pattern=^/.*` check is "starts with '/'", since `.*` may match nothing.
- `get_system_infos` (platform and psutil calls only) and the `list_processes` / `get_system_load` of core_functions/infos.py and infos.py. Those return psutil's own dictionaries or monitor output and have no logic of their own.
- ConfigLoader.Loader.Get: the `_config is None` branch cannot arise in the model, because the loader always holds a dictionary after construction.
- ConfigLoader.Loader.GetBool: lower-casing is ASCII-only. Python's `str.lower` also maps some non-ASCII letters, but none of them onto the letters of "true" or "yes", so membership is the same.
- ConfigLoader.SplitLineShape: states only the key property. That the key and the value have no surrounding white space follows from `Strip` and is not restated per line.
- User creation (`create_user`, `_create_user_record`, `_create_user_auth_record`), API-key generation, hashing and HMAC comparison, `get_user_perm_by_api_key`, `create_init_user`, `flush_database` and the user database's `init_db`/`is_ready`: randomness, cryptography, or code that is not part of this model.
- UserDatabase.UserStore.GetUserPermRecord: the deployed read always fails, because it fetches after the cursor's `with` block has closed the cursor and psycopg 3 refuses every fetch on a closed cursor; it always raises UserPermReadError. The model leaves its fault flag free on purpose so that the rest of `delete_user` can be stated; AsDeployed fixes the flag to the deployed behaviour.
- UserDatabase.UserStore.GetAdminCount: the pool creates every connection with dictionary rows (api/database/postgres_pool.py:98-104), so `fetchone()[0]` raises KeyError and the catch-all returns 0; the deployed count is always 0. Its fault flag is left free for the same reason, and AsDeployed sets it.
- UserDatabase.UserStore.DeleteUserRecord: the deployed statement deletes from `users.users`, while the table is `users.user` (api/database/models/user.py:9 and every migration), so it always raises UserDeletionError. Its fault flag is left free for the same reason, and AsDeployed sets it.
- UserDatabase.UserStore.DeleteUser: its True and None outcomes need the permission read, the count and the delete to work, which none of them does as deployed; DeleteUserDeployed states what the deployed code answers.
- `api/auth/auth.py` imports `api.exceptions.exceptions`, which is not part of this model; the repository has a differently named exceptions module without APIKeyEmptyError/KeyHashError. The model takes the intended exception classes as given.
- Readiness.EnsureClassReady: `str()` of the message is a parameter. Only boolean, integer, text and None results are modelled; a raising readiness method is one outcome, whatever the exception.
- The FastAPI routers, limiter, CORS/headers middleware, logging and the alembic migrations: framework glue and DDL. DeleteStatus models only the delete endpoint's exception-to-status mapping.

## Findings

| source | as written | input that shows it | evidently intended | confidence | as-written member | corrected member |
|---|---|---|---|---|---|---|
| api/middleware/metrics.py:16-29 | `route` is assigned only after `call_next` returns, so when the endpoint raises, `record(route, …)` in `finally` raises UnboundLocalError. The request is not recorded and the endpoint's exception is replaced. | a request whose endpoint raises an exception for which the application has no handler (an HTTPException, or an exception with a handler, becomes a response inside `call_next` and is recorded normally) | record the request once with status 500 and re-raise the endpoint's exception | high; not executed | MetricsMiddleware.Handle | MetricsMiddleware.HandleIntended |
| api/database/user_database/user_database.py:425-429 | for an admin while more than one active admin exists, the `if` has no `else` branch: the function returns None, deletes nothing, and the endpoint answers 500 | latent: once the permission read and the admin count work, two active admins a and b; delete a (as deployed, the permission read fails first) | delete the admin and return True, as the docstring states | high (latent); not executed | UserDatabase.DeleteUserCounterexamples | UserDatabase.DeleteKeepsAnAdmin |
| api/database/user_database/user_database.py:204-212 | a missing user raises UserNotFoundError inside `try`; the catch-all re-raises it as UserRecordReadError, so `delete_user` never raises UserNotFoundError and the endpoint answers 500 instead of 404 | delete an unknown user id "c" | UserNotFoundError, so the endpoint answers 404 | high; not executed | UserDatabase.DeleteUserAsWritten | UserDatabase.UserStore.DeleteUserIntended |
| api/database/metric_database/metric_database.py:275 | `postgres_pool.is_ready()` is called, but the pool class defines no `is_ready`, so an initialised metric database raises AttributeError instead of answering | `init_db` with no pending migration, then `is_ready()` | True iff initialised and the pool is healthy | high; not executed | MetricDatabase.MetricStore.IsReady | MetricDatabase.MetricStore.IsReadyIntended |
| api/database/metric_database/metric_database.py:163-172 | the status-code query selects, filters and orders by `time_bucket`, but the `route_status_codes` table's time column is `time` | any status-code query (ordering is unconditional) | filter and order on `time` | medium; not executed | MetricDatabase.StatusCodeTimeColumnMissing | MetricDatabase.StatusCodeWhere |
| api/database/metric_database/metric_database.py:244-253 | the global query filters and orders by `time_bucket`, but the `global_metrics` table's time column is `time` | any global-metrics query | filter and order on `time` | medium; not executed | MetricDatabase.GlobalTimeColumnMissing | MetricDatabase.GlobalWhere |
