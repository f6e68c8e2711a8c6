/** The flush worker's health record: counters and timestamps that one
    background loop updates after every flush attempt. */
module Health {
  import opened Common

  class FlushHealth {
    var successCount: nat
    var errorCount: nat
    var consecutiveFailures: nat
    var lastError: Option<string>
    var lastSuccess: Option<Timestamp>
    var lastAttempt: Option<Timestamp>

    /** A run of failures is never longer than the failures counted overall. */
    ghost predicate Valid()
      reads this
    {
      consecutiveFailures <= errorCount
    }

    /** A fresh record: no attempts, no successes, no errors. */
    constructor ()
      ensures Valid()
      ensures successCount == 0 && errorCount == 0 && consecutiveFailures == 0
      ensures lastError == None && lastSuccess == None && lastAttempt == None
    {
      successCount := 0;
      errorCount := 0;
      consecutiveFailures := 0;
      lastError := None;
      lastSuccess := None;
      lastAttempt := None;
    }

    /** A successful flush: one more success, the failure streak and the
        last error are cleared, `now` (the caller's UTC clock) is stored. */
    method RecordSuccess(now: Timestamp)
      requires Valid()
      modifies this
      ensures Valid()
      ensures successCount == old(successCount) + 1
      ensures consecutiveFailures == 0
      ensures lastSuccess == Some(now) && lastError == None
      ensures errorCount == old(errorCount) && lastAttempt == old(lastAttempt)
    {
      successCount := successCount + 1;
      consecutiveFailures := 0;
      lastSuccess := Some(now);
      lastError := None;
    }

    /** A failed flush: both the total and the streak grow by one and the
        error's text is kept; the success fields are untouched. */
    method RecordError(error: string)
      requires Valid()
      modifies this
      ensures Valid()
      ensures errorCount == old(errorCount) + 1
      ensures consecutiveFailures == old(consecutiveFailures) + 1
      ensures lastError == Some(error)
      ensures successCount == old(successCount)
      ensures lastSuccess == old(lastSuccess) && lastAttempt == old(lastAttempt)
    {
      errorCount := errorCount + 1;
      consecutiveFailures := consecutiveFailures + 1;
      lastError := Some(error);
    }

    /** The start of a flush attempt: only the attempt time changes. */
    method RecordAttempt(now: Timestamp)
      modifies this
      ensures lastAttempt == Some(now)
      ensures successCount == old(successCount) && errorCount == old(errorCount)
      ensures consecutiveFailures == old(consecutiveFailures)
      ensures lastError == old(lastError) && lastSuccess == old(lastSuccess)
    {
      lastAttempt := Some(now);
    }

    /** Failed flushes as a fraction of all finished flushes, 0.0 before the
        first one. */
    function ErrorRate(): (r: real)
      reads this
      ensures 0.0 <= r <= 1.0
      ensures successCount + errorCount == 0 ==> r == 0.0
      ensures r * ((successCount + errorCount) as real) == errorCount as real
      ensures r == 1.0 <==> successCount == 0 && errorCount > 0
      ensures r == 0.0 <==> errorCount == 0
    {
      var total := successCount + errorCount;
      if total != 0 then errorCount as real / total as real else 0.0
    }
  }
}
