/**
 * The service-side load monitor: a background thread appends one system
 * load and one CPU percentage per minute; readers get the last `n` samples
 * or a cached average.
 */
module LoadMonitor {
  import opened Common
  import opened Stats

  /** The samples `get_last_*_loads(n)` selects: `n` is replaced by the
      number of samples when it is None or too large, then `xs[-n:]`. */
  function LastSelection<T>(xs: seq<T>, n: Option<int>): seq<T> {
    NegSlice(xs, if n.None? || n.value > |xs| then |xs| else n.value)
  }

  /** None, zero and too-large requests all give every sample; a request
      for 0 < n <= len gives the last n; a negative one drops the first -n. */
  lemma LastSelectionSpec<T>(xs: seq<T>, n: Option<int>)
    ensures n.None? ==> LastSelection(xs, n) == xs
    ensures n.Some? && (n.value == 0 || n.value >= |xs|) ==> LastSelection(xs, n) == xs
    ensures n.Some? && 0 < n.value <= |xs| ==> LastSelection(xs, n) == xs[|xs| - n.value..]
    ensures n.Some? && n.value < 0 ==> LastSelection(xs, n) == if -n.value <= |xs| then xs[-n.value..] else []
    ensures LastSelection(xs, n) == [] <==> xs == [] || (n.Some? && n.value <= -|xs|)
  {
    var k := if n.None? || n.value > |xs| then |xs| else n.value;
    NegSliceSpec(xs, k);
  }

  /** The answer of an average getter: a value, or the getter's exception. */
  datatype Average = Value(value: real) | NoAverage

  class LoadMonitor {
    /** One-minute load averages, oldest first. */
    var systemLoads: seq<real>
    /** CPU usage percentages (0-100), oldest first. */
    var cpuLoads: seq<real>
    var systemAverageCache: Option<real>
    var cpuAverageCache: Option<real>
    var running: bool
    /** Where the samples averaged into `systemAverageCache` start. */
    ghost var systemCacheFrom: nat

    /** A cached average is the mean of the samples it was computed from: all
        CPU samples, or the most recent system samples from some index on. */
    ghost predicate Valid()
      reads this
    {
      && (cpuAverageCache.Some? ==> cpuLoads != [] && cpuAverageCache.value == Mean(cpuLoads))
      && (systemAverageCache.Some? ==>
            systemCacheFrom < |systemLoads| && systemAverageCache.value == Mean(systemLoads[systemCacheFrom..]))
    }

    constructor ()
      ensures Valid() && running
      ensures systemLoads == [] && cpuLoads == []
      ensures systemAverageCache == None && cpuAverageCache == None
    {
      systemLoads, cpuLoads := [], [];
      systemAverageCache, cpuAverageCache := None, None;
      running := true;
      systemCacheFrom := 0;
    }

    /** One pass of the sampling loop: both samples appended, both caches
        dropped. A stopped monitor samples nothing. */
    method RunStep(load1: real, cpuPercent: real) returns (sampled: bool)
      requires Valid()
      modifies this
      ensures Valid() && running == old(running) && sampled == old(running)
      ensures sampled ==>
        && systemLoads == old(systemLoads) + [load1] && cpuLoads == old(cpuLoads) + [cpuPercent]
        && systemAverageCache == None && cpuAverageCache == None
      ensures !sampled ==>
        && systemLoads == old(systemLoads) && cpuLoads == old(cpuLoads)
        && systemAverageCache == old(systemAverageCache) && cpuAverageCache == old(cpuAverageCache)
    {
      if !running {
        return false;
      }
      systemLoads := systemLoads + [load1];
      cpuLoads := cpuLoads + [cpuPercent];
      systemAverageCache, cpuAverageCache := None, None;
      sampled := true;
    }

    /** `stop()`: the loop ends before its next pass. */
    method Stop()
      requires Valid()
      modifies this
      ensures Valid() && !running
      ensures systemLoads == old(systemLoads) && cpuLoads == old(cpuLoads)
      ensures systemAverageCache == old(systemAverageCache) && cpuAverageCache == old(cpuAverageCache)
    {
      running := false;
    }

    /** Ready while the thread is alive and has not been asked to stop. */
    function IsReady(alive: bool): (r: bool)
      reads this
      ensures r <==> alive && running
    {
      alive && running
    }

    method GetLastSystemLoads(n: Option<int>) returns (loads: seq<real>)
      ensures loads == LastSelection(systemLoads, n)
    {
      var k := if n.None? || n.value > |systemLoads| then |systemLoads| else n.value;
      loads := systemLoads[SliceStart(|systemLoads|, -k)..];
    }

    /** The selected CPU samples as fractions (percent / 100). */
    method GetLastCpuLoads(n: Option<int>) returns (loads: seq<real>)
      ensures |loads| == |LastSelection(cpuLoads, n)|
      ensures forall i :: 0 <= i < |loads| ==> loads[i] * 100.0 == LastSelection(cpuLoads, n)[i]
    {
      var k := if n.None? || n.value > |cpuLoads| then |cpuLoads| else n.value;
      var selected := cpuLoads[SliceStart(|cpuLoads|, -k)..];
      loads := seq(|selected|, i requires 0 <= i < |selected| => selected[i] / 100.0);
    }

    /**
     * The cached system average if there is one, whatever `n` is now;
     * otherwise the mean of the selected samples, which is then cached. No
     * selected sample is NoAverageSystemLoad.
     */
    method GetAverageSystemLoad(n: Option<int>) returns (r: Average)
      requires Valid()
      modifies this
      ensures Valid()
      ensures systemLoads == old(systemLoads) && cpuLoads == old(cpuLoads)
      ensures cpuAverageCache == old(cpuAverageCache) && running == old(running)
      ensures old(systemAverageCache).Some? ==>
        r == Value(old(systemAverageCache).value) && systemAverageCache == old(systemAverageCache)
      ensures old(systemAverageCache).None? ==>
        var vals := LastSelection(systemLoads, n);
        && (r.NoAverage? <==> vals == [])
        && (r.Value? ==> r.value == Mean(vals) && Min(vals) <= r.value <= Max(vals)
                         && systemAverageCache == Some(r.value))
        && (r.NoAverage? ==> systemAverageCache == None)
      ensures r.Value? ==> exists i :: 0 <= i < |systemLoads| && r.value == Mean(systemLoads[i..])
    {
      if systemAverageCache.Some? {
        return Value(systemAverageCache.value);
      }
      var vals := GetLastSystemLoads(n);
      if vals == [] {
        return NoAverage;
      }
      var average := Sum(vals) / (|vals| as real);
      MeanBetween(vals);
      systemAverageCache := Some(average);
      systemCacheFrom := SliceStart(|systemLoads|, -(if n.None? || n.value > |systemLoads| then |systemLoads| else n.value));
      r := Value(average);
    }

    /**
     * The cached CPU average if there is one; otherwise the mean of ALL CPU
     * samples (in percent, unlike `GetLastCpuLoads`), which is then cached.
     * No sample at all is NoAverageCpuLoad.
     */
    method GetAverageCpuLoad() returns (r: Average)
      requires Valid()
      modifies this
      ensures Valid()
      ensures systemLoads == old(systemLoads) && cpuLoads == old(cpuLoads)
      ensures systemAverageCache == old(systemAverageCache) && running == old(running)
      ensures r.NoAverage? <==> cpuLoads == []
      ensures r.Value? ==> r.value == Mean(cpuLoads) && Min(cpuLoads) <= r.value <= Max(cpuLoads)
      ensures r.Value? ==> cpuAverageCache == Some(r.value)
      ensures r.NoAverage? ==> cpuAverageCache == old(cpuAverageCache)
    {
      if cpuAverageCache.Some? {
        MeanBetween(cpuLoads);
        return Value(cpuAverageCache.value);
      }
      if cpuLoads == [] {
        return NoAverage;
      }
      var average := Sum(cpuLoads) / (|cpuLoads| as real);
      MeanBetween(cpuLoads);
      cpuAverageCache := Some(average);
      r := Value(average);
    }
  }
}
