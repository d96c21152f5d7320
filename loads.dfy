/**
 * `compute_cpu_loads`: the busy share of each core between two snapshots of
 * the `/proc/stat` counters, as a percentage.
 */
module Loads {
  import opened CpuStat
  import opened Units

  /** 2^64: `unsigned long long` arithmetic is modulo this. */
  const U64: nat := 0x1_0000_0000_0000_0000

  /** Ticks spent idle: `idle + iowait`, the fourth and fifth counters of the line. */
  function IdleTime(c: CpuTimes): (t: nat)
    ensures t == Counters(c)[3] + Counters(c)[4]
  {
    c.idle + c.iowait
  }

  /** Ticks spent working: every other counter the reader keeps. */
  function NonIdleTime(c: CpuTimes): (t: nat)
    ensures t == Counters(c)[0] + Counters(c)[1] + Counters(c)[2] + Counters(c)[5] + Counters(c)[6] + Counters(c)[7]
  {
    c.user + c.nice + c.system + c.irq + c.softirq + c.steal
  }

  /** All ticks: each of the eight counters counted once. */
  function TotalTime(c: CpuTimes): (t: nat)
    ensures t == Counters(c)[0] + Counters(c)[1] + Counters(c)[2] + Counters(c)[3] +
                 Counters(c)[4] + Counters(c)[5] + Counters(c)[6] + Counters(c)[7]
  {
    IdleTime(c) + NonIdleTime(c)
  }

  /** `now - before` when the counter did not go backwards, and 0 when it did. */
  function ClampedDiff(now: nat, before: nat): (d: nat)
    ensures now >= before ==> before + d == now
    ensures now < before ==> d == 0
  {
    if now >= before then now - before else 0
  }

  /** `total_diff`: the ticks that elapsed, clamped at 0. */
  function TotalDiff(prev: CpuTimes, curr: CpuTimes): (d: nat)
    ensures TotalTime(prev) <= TotalTime(curr) ==> TotalTime(prev) + d == TotalTime(curr)
    ensures TotalTime(curr) < TotalTime(prev) ==> d == 0
  {
    ClampedDiff(TotalTime(curr), TotalTime(prev))
  }

  /** `idle_diff`: the idle ticks that elapsed, clamped at 0. */
  function IdleDiff(prev: CpuTimes, curr: CpuTimes): (d: nat)
    ensures IdleTime(prev) <= IdleTime(curr) ==> IdleTime(prev) + d == IdleTime(curr)
    ensures IdleTime(curr) < IdleTime(prev) ==> d == 0
  {
    ClampedDiff(IdleTime(curr), IdleTime(prev))
  }

  /**
   * The load as the source computes it: `total_diff - idle_diff` is an
   * `unsigned long long` subtraction, so it wraps modulo 2^64 when the idle
   * ticks grew by more than the total.  The doubles are taken as exact reals.
   */
  function CoreLoadAsWritten(prev: CpuTimes, curr: CpuTimes): (r: real)
    ensures r >= 0.0
    ensures TotalDiff(prev, curr) == 0 ==> r == 0.0
    ensures TotalDiff(prev, curr) > 0 ==>
      r * TotalDiff(prev, curr) as real == ((TotalDiff(prev, curr) - IdleDiff(prev, curr)) % U64) as real * 100.0
    ensures IdleDiff(prev, curr) <= TotalDiff(prev, curr) < U64 ==> r <= 100.0
  {
    var totalDiff := TotalDiff(prev, curr);
    var idleDiff := IdleDiff(prev, curr);
    if totalDiff == 0 then 0.0
    else
      var busy := (totalDiff - idleDiff) % U64;
      assert idleDiff <= totalDiff < U64 ==> busy == totalDiff - idleDiff <= totalDiff;
      Percent(busy, totalDiff)
  }

  /**
   * The busy ticks of the corrected formula: the elapsed ticks that were not
   * idle, and none when the idle ticks grew by more than the total.
   */
  function BusyDiff(prev: CpuTimes, curr: CpuTimes): (b: nat)
    ensures b <= TotalDiff(prev, curr)
    ensures IdleDiff(prev, curr) <= TotalDiff(prev, curr) ==>
      b + IdleDiff(prev, curr) == TotalDiff(prev, curr)
  {
    var totalDiff := TotalDiff(prev, curr);
    var idleDiff := IdleDiff(prev, curr);
    if idleDiff <= totalDiff then totalDiff - idleDiff else 0
  }

  /**
   * The load of one core, corrected: the percentage of the elapsed ticks
   * that were not idle, 0 when no tick elapsed.
   */
  function CoreLoad(prev: CpuTimes, curr: CpuTimes): (r: real)
    ensures 0.0 <= r <= 100.0
    ensures TotalDiff(prev, curr) == 0 ==> r == 0.0
    ensures TotalDiff(prev, curr) > 0 ==> r * TotalDiff(prev, curr) as real == BusyDiff(prev, curr) as real * 100.0
  {
    var totalDiff := TotalDiff(prev, curr);
    if totalDiff == 0 then 0.0
    else Percent(BusyDiff(prev, curr), totalDiff)
  }

  /**
   * Wherever the idle ticks did not outgrow the total, the formula as written
   * is the corrected one.  The elapsed ticks are an `unsigned long long`, so
   * they are below 2^64.
   */
  lemma AsWrittenAgrees(prev: CpuTimes, curr: CpuTimes)
    requires IdleDiff(prev, curr) <= TotalDiff(prev, curr) < U64
    ensures CoreLoadAsWritten(prev, curr) == CoreLoad(prev, curr)
  {
    var d := TotalDiff(prev, curr) - IdleDiff(prev, curr);
    assert d % U64 == d;
  }

  /**
   * Within 64 bits, the two formulas differ exactly when the idle ticks grew
   * by more than a non-zero number of elapsed ticks; with no elapsed tick
   * both take the 0 branch.
   */
  lemma AsWrittenDiffersIff(prev: CpuTimes, curr: CpuTimes)
    requires TotalDiff(prev, curr) < U64 && IdleDiff(prev, curr) < U64
    ensures CoreLoad(prev, curr) != CoreLoadAsWritten(prev, curr) <==>
      IdleDiff(prev, curr) > TotalDiff(prev, curr) > 0
  {
    var t, i := TotalDiff(prev, curr), IdleDiff(prev, curr);
    if i <= t {
      AsWrittenAgrees(prev, curr);
    } else if t > 0 {
      var w := (t - i) % U64;
      assert w == U64 + t - i > 0;
      assert CoreLoad(prev, curr) == 0.0;
      assert CoreLoadAsWritten(prev, curr) * t as real == w as real * 100.0 > 0.0;
    }
  }

  /** No counter of the core went backwards. */
  predicate Monotone(prev: CpuTimes, curr: CpuTimes)
  {
    prev.user <= curr.user && prev.nice <= curr.nice && prev.system <= curr.system &&
    prev.idle <= curr.idle && prev.iowait <= curr.iowait && prev.irq <= curr.irq &&
    prev.softirq <= curr.softirq && prev.steal <= curr.steal
  }

  /** With counters that only grow, the idle ticks are part of the elapsed ticks. */
  lemma MonotoneIdleWithinTotal(prev: CpuTimes, curr: CpuTimes)
    requires Monotone(prev, curr)
    ensures IdleDiff(prev, curr) <= TotalDiff(prev, curr)
    ensures IdleDiff(prev, curr) + (NonIdleTime(curr) - NonIdleTime(prev)) == TotalDiff(prev, curr)
  {
  }

  /** With counters that only grow, and sums within 64 bits, the load as written lies in [0, 100]. */
  lemma MonotoneLoadBounded(prev: CpuTimes, curr: CpuTimes)
    requires Monotone(prev, curr) && TotalTime(curr) < U64
    ensures 0.0 <= CoreLoadAsWritten(prev, curr) <= 100.0
  {
    MonotoneIdleWithinTotal(prev, curr);
    AsWrittenAgrees(prev, curr);
  }

  /** Two identical snapshots: no tick elapsed, so the load is 0. */
  lemma IdenticalSnapshotsIdle(c: CpuTimes)
    ensures CoreLoad(c, c) == 0.0 && CoreLoadAsWritten(c, c) == 0.0
  {
  }

  /** Only idle time grew: the load is 0. */
  lemma IdleGrowthOnly(prev: CpuTimes, idle: nat, iowait: nat)
    requires idle >= prev.idle && iowait >= prev.iowait
    ensures CoreLoad(prev, prev.(idle := idle, iowait := iowait)) == 0.0
    ensures CoreLoadAsWritten(prev, prev.(idle := idle, iowait := iowait)) == 0.0
  {
    var curr := prev.(idle := idle, iowait := iowait);
    assert TotalDiff(prev, curr) == IdleDiff(prev, curr);
    assert BusyDiff(prev, curr) == 0;
  }

  /** Only user time grew, within 64 bits: the load is 100. */
  lemma UserGrowthOnly(prev: CpuTimes, user: nat)
    requires user > prev.user && TotalTime(prev.(user := user)) < U64
    ensures CoreLoad(prev, prev.(user := user)) == 100.0
    ensures CoreLoadAsWritten(prev, prev.(user := user)) == 100.0
  {
    var curr := prev.(user := user);
    var t := TotalDiff(prev, curr);
    assert IdleDiff(prev, curr) == 0;
    assert BusyDiff(prev, curr) == t > 0;
    AsWrittenAgrees(prev, curr);
  }

  /**
   * The wrap the source does not guard against: user time drops by 5 while
   * idle time grows by 10, so 5 ticks elapsed of which 10 were idle, and
   * `total_diff - idle_diff` becomes 2^64 - 5.
   */
  lemma AsWrittenExceedsHundred()
    ensures CoreLoadAsWritten(CpuTimes(10, 0, 0, 0, 0, 0, 0, 0), CpuTimes(5, 0, 0, 10, 0, 0, 0, 0)) > 100.0
    ensures CoreLoad(CpuTimes(10, 0, 0, 0, 0, 0, 0, 0), CpuTimes(5, 0, 0, 10, 0, 0, 0, 0)) == 0.0
  {
    var prev := CpuTimes(10, 0, 0, 0, 0, 0, 0, 0);
    var curr := CpuTimes(5, 0, 0, 10, 0, 0, 0, 0);
    assert TotalDiff(prev, curr) == 5 && IdleDiff(prev, curr) == 10;
    assert (5 - 10) % U64 == U64 - 5;
  }

  /** The load of every core, index by index. */
  function CpuLoads(prev: seq<CpuTimes>, curr: seq<CpuTimes>): (r: seq<real>)
    requires |prev| == |curr|
    ensures |r| == |curr|
    ensures forall i :: 0 <= i < |r| ==> r[i] == CoreLoad(prev[i], curr[i])
  {
    if |curr| == 0 then [] else [CoreLoad(prev[0], curr[0])] + CpuLoads(prev[1..], curr[1..])
  }

  /** Every load lies in [0, 100]. */
  lemma LoadsArePercentages(prev: seq<CpuTimes>, curr: seq<CpuTimes>)
    requires |prev| == |curr|
    ensures forall i :: 0 <= i < |curr| ==> 0.0 <= CpuLoads(prev, curr)[i] <= 100.0
  {
  }

  /**
   * Where no core's counters went backwards and every total fits in 64 bits,
   * each load is exactly the value the source's own formula stores.
   */
  lemma CpuLoadsAsWrittenWhenMonotone(prev: seq<CpuTimes>, curr: seq<CpuTimes>)
    requires |prev| == |curr|
    requires forall i :: 0 <= i < |curr| ==> Monotone(prev[i], curr[i]) && TotalTime(curr[i]) < U64
    ensures forall i :: 0 <= i < |curr| ==> CpuLoads(prev, curr)[i] == CoreLoadAsWritten(prev[i], curr[i])
  {
    forall i | 0 <= i < |curr|
      ensures CpuLoads(prev, curr)[i] == CoreLoadAsWritten(prev[i], curr[i])
    {
      MonotoneIdleWithinTotal(prev[i], curr[i]);
      AsWrittenAgrees(prev[i], curr[i]);
    }
  }

  /** `compute_cpu_loads`: fills `loads[i]` with the load of core `i`. */
  method ComputeCpuLoads(prev: seq<CpuTimes>, curr: seq<CpuTimes>, loads: array<real>)
    requires |prev| == |curr| == loads.Length
    modifies loads
    ensures loads[..] == CpuLoads(prev, curr)
  {
    var i := 0;
    while i < |curr|
      invariant 0 <= i <= |curr|
      invariant forall j :: 0 <= j < i ==> loads[j] == CoreLoad(prev[j], curr[j])
    {
      var totalDiff := ClampedDiff(TotalTime(curr[i]), TotalTime(prev[i]));
      var idleDiff := ClampedDiff(IdleTime(curr[i]), IdleTime(prev[i]));
      if totalDiff == 0 {
        loads[i] := 0.0;
      } else {
        var busy := if idleDiff <= totalDiff then totalDiff - idleDiff else 0;
        loads[i] := Percent(busy, totalDiff);
      }
      i := i + 1;
    }
  }
}
