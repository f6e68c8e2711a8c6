/**
 * The uptime report: the seconds since boot, truncated to a whole number and
 * split into days, hours, minutes and seconds with floor division.  The same
 * straight-line arithmetic appears in three places of the system (the API's
 * system-info helpers, the core info helpers and the stand-alone info script);
 * it is modelled once here.  The boot time and the wall clock are parameters.
 */
module Uptime {

  const SecondsPerDay: int := 86400
  const SecondsPerHour: int := 3600
  const SecondsPerMinute: int := 60

  /** Python's `int()` on a float: truncation toward zero. */
  function TruncToInt(x: real): (r: int)
    ensures x >= 0.0 ==> r >= 0 && r as real <= x < r as real + 1.0
    ensures x < 0.0 ==> r <= 0 && r as real - 1.0 < x <= r as real
  {
    if x >= 0.0 then x.Floor else -((-x).Floor)
  }

  /** The dictionary returned by `get_system_uptime`. */
  datatype UptimeInfo = UptimeInfo(days: int, hours: int, minutes: int, seconds: int, fullSeconds: int)

  /** A split whose parts are in range and add back up to `total`. */
  predicate IsSplitOf(u: UptimeInfo, total: int) {
    && 0 <= u.hours < 24
    && 0 <= u.minutes < 60
    && 0 <= u.seconds < 60
    && u.days * SecondsPerDay + u.hours * SecondsPerHour + u.minutes * SecondsPerMinute + u.seconds == total
    && u.fullSeconds == total
  }

  /**
   * Three successive `divmod`s.  Python's `divmod` floors, which for these
   * positive divisors agrees with Dafny's Euclidean `/` and `%`, also when the
   * clock has gone backwards and the uptime is negative.
   */
  function Decompose(uptimeSeconds: int): (u: UptimeInfo)
    ensures IsSplitOf(u, uptimeSeconds)
    ensures u.days * SecondsPerDay <= uptimeSeconds < (u.days + 1) * SecondsPerDay
    ensures uptimeSeconds >= 0 ==> u.days >= 0
  {
    var days, remainder := uptimeSeconds / SecondsPerDay, uptimeSeconds % SecondsPerDay;
    var hours, remainder' := remainder / SecondsPerHour, remainder % SecondsPerHour;
    var minutes, seconds := remainder' / SecondsPerMinute, remainder' % SecondsPerMinute;
    UptimeInfo(days, hours, minutes, seconds, uptimeSeconds)
  }

  /** `get_system_uptime`, with the boot time and the current time passed in. */
  function GetSystemUptime(bootTime: real, now: real): (u: UptimeInfo)
    ensures IsSplitOf(u, TruncToInt(now - bootTime))
    ensures now >= bootTime ==> u.days >= 0 && u.fullSeconds as real <= now - bootTime < u.fullSeconds as real + 1.0
  {
    Decompose(TruncToInt(now - bootTime))
  }

  /**
   * The split is the only one in range: any days/hours/minutes/seconds with
   * the same bounds that add up to the same total are the ones `Decompose`
   * returns.
   */
  lemma DecomposeUnique(total: int, u: UptimeInfo)
    requires IsSplitOf(u, total)
    ensures Decompose(total) == u
  {
    var belowDay := u.hours * SecondsPerHour + u.minutes * SecondsPerMinute + u.seconds;
    var belowHour := u.minutes * SecondsPerMinute + u.seconds;
    assert 0 <= belowHour < SecondsPerHour;
    assert 0 <= belowDay < SecondsPerDay;
    assert total / SecondsPerDay == u.days && total % SecondsPerDay == belowDay;
    assert belowDay / SecondsPerHour == u.hours && belowDay % SecondsPerHour == belowHour;
    assert belowHour / SecondsPerMinute == u.minutes && belowHour % SecondsPerMinute == u.seconds;
  }
}
