/**
 * `calculate_physical_used`, `calculate_virtual_used` and the two usage
 * percentages the monitor prints, on a sample of `/proc/meminfo`.
 */
module MemoryCalc {
  import opened Outcomes
  import opened Units
  import opened MemInfoReader

  /** The kernel's own estimate is there and does not exceed the total. */
  predicate AvailableUsable(m: MemorySample)
  {
    m.hasMemAvailable && m.memTotalKb >= m.memAvailableKb
  }

  /** Free memory plus buffers plus page cache: what the fallback counts as reclaimable. */
  function Reclaimable(m: MemorySample): nat
  {
    m.memFreeKb + m.buffersKb + m.cachedKb
  }

  /**
   * Physical memory in use: the total less `MemAvailable` when the kernel
   * reports a usable one; otherwise the total less free memory, buffers and
   * page cache; if those exceed the total, the total less free memory alone;
   * and 0 when even free memory exceeds the total.
   */
  function PhysicalUsed(m: MemorySample): (r: nat)
    ensures r <= m.memTotalKb
    ensures AvailableUsable(m) ==> r + m.memAvailableKb == m.memTotalKb
    ensures !AvailableUsable(m) && Reclaimable(m) <= m.memTotalKb ==> r + Reclaimable(m) == m.memTotalKb
    ensures !AvailableUsable(m) && Reclaimable(m) > m.memTotalKb && m.memFreeKb <= m.memTotalKb ==>
      r + m.memFreeKb == m.memTotalKb
    ensures !AvailableUsable(m) && m.memFreeKb > m.memTotalKb ==> r == 0
  {
    if AvailableUsable(m) then m.memTotalKb - m.memAvailableKb
    else if m.memTotalKb >= Reclaimable(m) then m.memTotalKb - m.memFreeKb - m.buffersKb - m.cachedKb
    else if m.memTotalKb >= m.memFreeKb then m.memTotalKb - m.memFreeKb
    else 0
  }

  /** Swap in use: the swap total less free swap, and 0 when free swap exceeds the total. */
  function VirtualUsed(m: MemorySample): (r: nat)
    ensures r <= m.swapTotalKb
    ensures m.swapFreeKb <= m.swapTotalKb ==> r + m.swapFreeKb == m.swapTotalKb
    ensures m.swapFreeKb > m.swapTotalKb ==> r == 0
  {
    if m.swapTotalKb >= m.swapFreeKb then m.swapTotalKb - m.swapFreeKb else 0
  }

  /** The physical usage percentage: 0 when no memory total was read. */
  function PhysicalPercent(m: MemorySample): (r: real)
    ensures 0.0 <= r <= 100.0
    ensures m.memTotalKb == 0 ==> r == 0.0
    ensures m.memTotalKb > 0 ==> r * m.memTotalKb as real == PhysicalUsed(m) as real * 100.0
  {
    if m.memTotalKb > 0 then Percent(PhysicalUsed(m), m.memTotalKb) else 0.0
  }

  /** The swap usage percentage; None when there is no swap, which the monitor prints as "n/a". */
  function VirtualPercent(m: MemorySample): (r: Option<real>)
    ensures r.None? <==> m.swapTotalKb == 0
    ensures r.Some? ==> 0.0 <= r.value <= 100.0
    ensures r.Some? ==> r.value * m.swapTotalKb as real == VirtualUsed(m) as real * 100.0
  {
    if m.swapTotalKb > 0 then Some(Percent(VirtualUsed(m), m.swapTotalKb)) else None
  }

  /** A usable `MemAvailable` alone decides the figure: free memory, buffers and cache do not enter it. */
  lemma AvailableDecides(m: MemorySample, free: nat, buffers: nat, cached: nat)
    requires AvailableUsable(m)
    ensures PhysicalUsed(m.(memFreeKb := free, buffersKb := buffers, cachedKb := cached)) == PhysicalUsed(m)
  {
  }

  /** While `MemAvailable` stays within the total, the more the kernel reports available, the less is counted in use. */
  lemma MoreAvailableLessUsed(m: MemorySample, available: nat)
    requires AvailableUsable(m) && m.memAvailableKb <= available <= m.memTotalKb
    ensures PhysicalUsed(m.(memAvailableKb := available)) <= PhysicalUsed(m)
  {
  }

  /**
   * Past the total, `MemAvailable` is ignored and the fallback applies, so
   * the figure is not monotone there: 1000 available of 1000 gives 0 in use,
   * 1001 available gives 500.
   */
  lemma AvailableBeyondTotalFallsBack()
    ensures PhysicalUsed(MemorySample(1000, 1000, 300, 100, 100, 0, 0, true)) == 0
    ensures PhysicalUsed(MemorySample(1000, 1001, 300, 100, 100, 0, 0, true)) == 500
  {
    assert !AvailableUsable(MemorySample(1000, 1001, 300, 100, 100, 0, 0, true));
  }

  /** The first fallback reports no more in use than the second: buffers and cache count as reclaimable. */
  lemma FallbackOrder(m: MemorySample)
    requires !AvailableUsable(m) && Reclaimable(m) <= m.memTotalKb
    ensures PhysicalUsed(m) <= m.memTotalKb - m.memFreeKb
  {
  }

  /** All swap free: none in use, 0 percent. */
  lemma SwapAllFree(m: MemorySample)
    requires m.swapTotalKb > 0 && m.swapFreeKb == m.swapTotalKb
    ensures VirtualUsed(m) == 0 && VirtualPercent(m) == Some(0.0)
  {
  }

  /** Worked figures: 1000 KiB total with 400 available gives 600 in use; without `MemAvailable`, 200 free, 100 buffers and 200 cached give 500. */
  lemma WorkedExamples()
    ensures PhysicalUsed(MemorySample(1000, 400, 300, 100, 100, 0, 0, true)) == 600
    ensures PhysicalPercent(MemorySample(1000, 400, 300, 100, 100, 0, 0, true)) == 60.0
    ensures PhysicalUsed(MemorySample(1000, 0, 200, 100, 200, 0, 0, false)) == 500
    ensures PhysicalUsed(MemorySample(1000, 1200, 300, 100, 100, 0, 0, true)) == 500
    ensures PhysicalUsed(MemorySample(1000, 0, 800, 200, 100, 0, 0, false)) == 200
    ensures PhysicalUsed(MemorySample(1000, 0, 1100, 0, 0, 0, 0, false)) == 0
    ensures VirtualPercent(MemorySample(1000, 0, 0, 0, 0, 2000, 500, false)) == Some(75.0)
  {
    assert PhysicalPercent(MemorySample(1000, 400, 300, 100, 100, 0, 0, true)) * 1000.0 == 60000.0;
    assert VirtualPercent(MemorySample(1000, 0, 0, 0, 0, 2000, 500, false)).value * 2000.0 == 150000.0;
  }
}
