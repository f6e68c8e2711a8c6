/**
 * The readiness guard used by the HTTP endpoints: it looks up a readiness
 * method on a service object, calls it, and answers True or raises an HTTP
 * error (501 when there is no such method, 503 when the service is not
 * ready).  The object, its readiness method and its answer are parameters.
 */
module Readiness {
  import opened Common
  import MetricDatabase

  /** A Python value as the readiness method may return it. */
  datatype PyValue = Flag(b: bool) | Number(n: int) | Text(s: string) | NoneValue

  /** Python truthiness. */
  predicate Truthy(v: PyValue) {
    match v
    case Flag(b) => b
    case Number(n) => n != 0
    case Text(s) => s != ""
    case NoneValue => false
  }

  /**
   * What calling the readiness method does: returns a tuple or a single
   * value, or raises.
   */
  datatype CheckResult = Tuple(items: seq<PyValue>) | Single(value: PyValue) | Raises

  /** The attribute named by `check` on the object. */
  datatype Checker = Absent | NotCallable | Callable(result: CheckResult)

  /** The guard's answer. */
  datatype Outcome =
    | Ready
    | HttpError(status: int, detail: string)
    /** `result[0]` on an empty tuple raises IndexError. */
    | EmptyTupleIndexError
    /** The readiness method raised; the guard does not catch it. */
    | CheckRaised

  /** `name or obj.__class__.__name__`: an empty name counts as missing. */
  function DisplayName(name: Option<string>, className: string): (r: string)
    ensures name.Some? && name.value != "" ==> r == name.value
    ensures name.None? || name.value == "" ==> r == className
  {
    if name.Some? && name.value != "" then name.value else className
  }

  /**
   * `ensure_class_ready`.  `show` is `str()` on the message.  A tuple gives
   * readiness from its first item and the message from its second, if any;
   * any other value gives readiness from its truthiness and no message.
   * An exception raised by the readiness method propagates unchanged.
   */
  function EnsureClassReady(checker: Checker, check: string, name: Option<string>, className: string,
                            show: PyValue -> string): (r: Outcome)
    ensures !checker.Callable? ==>
      r == HttpError(501, DisplayName(name, className) + " has no '" + check + "()' method")
    ensures checker.Callable? && checker.result.Tuple? && checker.result.items == [] ==> r == EmptyTupleIndexError
    ensures r == CheckRaised <==> checker.Callable? && checker.result.Raises?
    ensures r == Ready <==>
      checker.Callable? &&
      match checker.result
      case Tuple(items) => items != [] && Truthy(items[0])
      case Single(v) => Truthy(v)
      case Raises => false
    ensures checker.Callable? && checker.result.Single? && !Truthy(checker.result.value) ==>
      r == HttpError(503, DisplayName(name, className) + " not ready")
    ensures checker.Callable? && checker.result.Tuple? && checker.result.items != []
            && !Truthy(checker.result.items[0]) ==>
      var items := checker.result.items;
      r == HttpError(503, DisplayName(name, className) + " not ready"
                          + (if |items| > 1 && Truthy(items[1]) then ": " + show(items[1]) else ""))
    ensures r.HttpError? ==> r.status in {501, 503}
  {
    if !checker.Callable? then
      HttpError(501, DisplayName(name, className) + " has no '" + check + "()' method")
    else
      var result := checker.result;
      if result.Raises? then CheckRaised
      else if result.Tuple? && result.items == [] then EmptyTupleIndexError
      else
        var ready := if result.Tuple? then Truthy(result.items[0]) else Truthy(result.value);
        var message := if result.Tuple? && |result.items| > 1 then result.items[1] else NoneValue;
        var head := DisplayName(name, className) + " not ready";
        assert head + "" == head;
        if !ready then HttpError(503, head + (if Truthy(message) then ": " + show(message) else ""))
        else Ready
  }

  /** What the metric database's `is_ready` produces, as the guard sees it. */
  function MetricStoreCheck(a: MetricDatabase.ReadyAnswer): (r: CheckResult)
    ensures a.PoolHasNoIsReady? <==> r.Raises?
    ensures a.Answer? ==> r == Single(Flag(a.ready))
  {
    match a
    case Answer(ready) => Single(Flag(ready))
    case PoolHasNoIsReady => Raises
  }

  /**
   * The guard in front of every metrics endpoint, with the metric database's
   * `is_ready` as written: an initialised store raises AttributeError, which
   * propagates through the guard; an uninitialised one gives 503.  Since that
   * `is_ready` never answers True, no metrics endpoint is ever reached.
   */
  lemma MetricsRouterGuard(a: MetricDatabase.ReadyAnswer, show: PyValue -> string)
    requires a != MetricDatabase.Answer(true)
    ensures var r := EnsureClassReady(Callable(MetricStoreCheck(a)), "is_ready", Some("MetricDatabase"), "MetricDatabase", show);
      && r != Ready
      && (a.PoolHasNoIsReady? ==> r == CheckRaised)
      && (a == MetricDatabase.Answer(false) ==> r == HttpError(503, "MetricDatabase not ready"))
  {
  }
}
