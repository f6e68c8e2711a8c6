/**
 * The older load monitor: per-minute load averages, reported rounded to two
 * decimal places, plus per-CPU usage lists. Python's `round` on floats is
 * a parameter of the model (`Round(x, places)`).
 */
module LegacyLoadMonitor {
  import opened Common
  import opened Stats
  import LoadMonitor

  type Round = (real, int) -> real

  const DecimalPlaces: int := 2

  /** `get_average_cpu_load`: the loop returns inside its first pass, so
      only the oldest per-CPU list is averaged; no list gives None, and an
      empty first list divides by zero. */
  datatype CpuAverage = NoSample | CpuValue(value: real) | ZeroDivision

  class LegacyLoadMonitor {
    var loads: seq<real>
    var averageCache: Option<real>
    /** One list of per-CPU percentages per minute, oldest first. */
    var cpuSamples: seq<seq<real>>
    var running: bool

    constructor ()
      ensures loads == [] && averageCache == None && cpuSamples == [] && running
    {
      loads, averageCache, cpuSamples, running := [], None, [], true;
    }

    /** One pass of the sampling loop; a stopped monitor samples nothing. */
    method RunStep(load1: real, perCpu: seq<real>) returns (sampled: bool)
      modifies this
      ensures sampled == old(running) && running == old(running)
      ensures sampled ==> loads == old(loads) + [load1] && cpuSamples == old(cpuSamples) + [perCpu]
                          && averageCache == None
      ensures !sampled ==> loads == old(loads) && cpuSamples == old(cpuSamples)
                           && averageCache == old(averageCache)
    {
      if !running {
        return false;
      }
      loads := loads + [load1];
      cpuSamples := cpuSamples + [perCpu];
      averageCache := None;
      sampled := true;
    }

    method Stop()
      modifies this
      ensures !running
      ensures loads == old(loads) && cpuSamples == old(cpuSamples) && averageCache == old(averageCache)
    {
      running := false;
    }

    /** The selected loads, each rounded to two places. */
    method GetLastLoads(n: Option<int>, round: Round) returns (r: seq<real>)
      ensures |r| == |LoadMonitor.LastSelection(loads, n)|
      ensures forall i :: 0 <= i < |r| ==> r[i] == round(LoadMonitor.LastSelection(loads, n)[i], DecimalPlaces)
    {
      var k := if n.None? || n.value > |loads| then |loads| else n.value;
      var selected := loads[SliceStart(|loads|, -k)..];
      r := seq(|selected|, i requires 0 <= i < |selected| => round(selected[i], DecimalPlaces));
    }

    /**
     * The cached average if there is one; 0.0 (not cached) when nothing is
     * selected; otherwise the rounded mean of the rounded selected loads,
     * which is then cached.
     */
    method GetAverage(n: Option<int>, round: Round) returns (r: real)
      modifies this
      ensures loads == old(loads) && cpuSamples == old(cpuSamples) && running == old(running)
      ensures old(averageCache).Some? ==> r == old(averageCache).value && averageCache == old(averageCache)
      ensures old(averageCache).None? ==>
        var sel := LoadMonitor.LastSelection(loads, n);
        var vals := seq(|sel|, i requires 0 <= i < |sel| => round(sel[i], DecimalPlaces));
        && (sel == [] ==> r == 0.0 && averageCache == None)
        && (sel != [] ==> r == round(Mean(vals), DecimalPlaces) && averageCache == Some(r))
    {
      if averageCache.Some? {
        return averageCache.value;
      }
      var vals := GetLastLoads(n, round);
      ghost var sel := LoadMonitor.LastSelection(loads, n);
      assert vals == seq(|sel|, i requires 0 <= i < |sel| => round(sel[i], DecimalPlaces));
      if vals == [] {
        return 0.0;
      }
      var average := Sum(vals) / (|vals| as real);
      average := round(average, DecimalPlaces);
      averageCache := Some(average);
      r := average;
    }

    /** Only the first per-CPU list counts, however many minutes were sampled. */
    method GetAverageCpuLoad(round: Round) returns (r: CpuAverage)
      ensures cpuSamples == [] <==> r.NoSample?
      ensures cpuSamples != [] && cpuSamples[0] == [] <==> r.ZeroDivision?
      ensures r.CpuValue? ==> r.value == round(Mean(cpuSamples[0]), DecimalPlaces)
    {
      if cpuSamples == [] {
        return NoSample;
      }
      var first := cpuSamples[0];
      if |first| == 0 {
        return ZeroDivision;
      }
      r := CpuValue(round(Sum(first) / (|first| as real), DecimalPlaces));
    }
  }
}
