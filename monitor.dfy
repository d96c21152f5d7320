/**
 * One refresh of the monitor's main loop: read `/proc/cpuinfo`,
 * `/proc/meminfo` and `/proc/stat` in that order, stop at the first that
 * fails, compute the figures of the frame, and keep this refresh's counters
 * as the previous snapshot of the next one.
 */
module Monitor {
  import opened Outcomes
  import opened Units
  import opened CpuInfoReader
  import opened MemInfoReader
  import opened CpuStat
  import opened Loads
  import opened MemoryCalc

  /** The file whose read failed; the loop ends with a failure status. */
  datatype ProcFile = CpuInfoFile | MemInfoFile | StatFile

  /**
   * What one refresh prints, before rendering.  `virtualPercent` None is
   * printed as "n/a"; `swapTotal` is printed only when there is swap; `loads`
   * None is printed as "Gathering data...".
   */
  datatype Frame = Frame(
    processor: string,
    cores: nat,
    installed: Quantity,
    physicalUsed: Quantity,
    physicalPercent: real,
    virtualUsed: Quantity,
    virtualPercent: Option<real>,
    swapTotal: Option<Quantity>,
    loads: Option<seq<real>>)

  /** The processor line: the model name, or "Unknown" when none was read. */
  function ProcessorLabel(modelName: string): (r: string)
    ensures |r| > 0
    ensures |modelName| == 0 ==> r == "Unknown"
    ensures |modelName| > 0 ==> r == modelName
  {
    if |modelName| == 0 then "Unknown" else modelName
  }

  /** Per-core loads are shown only against a previous snapshot with as many cores. */
  predicate Comparable(previous: Option<seq<CpuTimes>>, current: seq<CpuTimes>)
  {
    previous.Some? && |previous.value| == |current|
  }

  /** The loads of this refresh, when there is a comparable previous snapshot. */
  function LoadsFor(previous: Option<seq<CpuTimes>>, current: seq<CpuTimes>): (r: Option<seq<real>>)
    ensures r.Some? <==> Comparable(previous, current)
    ensures r.Some? ==> |r.value| == |current|
    ensures r.Some? ==> forall i :: 0 <= i < |current| ==> r.value[i] == CoreLoad(previous.value[i], current[i])
  {
    if Comparable(previous, current) then Some(CpuLoads(previous.value, current)) else None
  }

  /** The figures of one refresh from what the three readers produced. */
  function FrameOf(cpu: CpuDescription, mem: MemorySample, loads: Option<seq<real>>): (f: Frame)
  {
    Frame(ProcessorLabel(cpu.modelName), cpu.coreCount,
          Shown(mem.memTotalKb), Shown(PhysicalUsed(mem)), PhysicalPercent(mem),
          Shown(VirtualUsed(mem)), VirtualPercent(mem),
          if mem.swapTotalKb > 0 then Some(Shown(mem.swapTotalKb)) else None,
          loads)
  }

  /** One refresh: the first file that fails to read, or the frame. */
  function TickOf(previous: Option<seq<CpuTimes>>, cpuinfo: Option<seq<string>>,
                  meminfo: Option<seq<string>>, stat: Option<seq<string>>): Result<Frame, ProcFile>
  {
    if cpuinfo.None? then Err(CpuInfoFile)
    else if meminfo.None? then Err(MemInfoFile)
    else match ReadCpuTimesOf(stat)
      case Err(_) => Err(StatFile)
      case Ok(current) =>
        Ok(FrameOf(CpuInfoOf(cpuinfo.value), MemInfoOf(meminfo.value), LoadsFor(previous, current)))
  }

  /**
   * The previous snapshot after one refresh: this refresh's counters when it
   * succeeded; after a failure the loop ends, and the model keeps the old one.
   */
  function NextPrevious(previous: Option<seq<CpuTimes>>, cpuinfo: Option<seq<string>>,
                        meminfo: Option<seq<string>>, stat: Option<seq<string>>): Option<seq<CpuTimes>>
  {
    if cpuinfo.Some? && meminfo.Some? && ReadCpuTimesOf(stat).Ok? then Some(ReadCpuTimesOf(stat).value)
    else previous
  }

  /** The files are read in order and the first failure is the one reported. */
  lemma FailureOrder(previous: Option<seq<CpuTimes>>, cpuinfo: Option<seq<string>>,
                     meminfo: Option<seq<string>>, stat: Option<seq<string>>)
    ensures TickOf(previous, cpuinfo, meminfo, stat) == Err(CpuInfoFile) <==> cpuinfo.None?
    ensures TickOf(previous, cpuinfo, meminfo, stat) == Err(MemInfoFile) <==> cpuinfo.Some? && meminfo.None?
    ensures TickOf(previous, cpuinfo, meminfo, stat) == Err(StatFile) <==>
      cpuinfo.Some? && meminfo.Some? && ReadCpuTimesOf(stat).Err?
    ensures TickOf(previous, cpuinfo, meminfo, stat).Ok? <==>
      cpuinfo.Some? && meminfo.Some? && stat.Some? && |CpuTimesOf(stat.value)| > 0
  {
  }

  /** A refresh shows loads exactly when the previous snapshot has as many cores as this one, and then they are percentages. */
  lemma LoadsShownIff(previous: Option<seq<CpuTimes>>, cpuinfo: Option<seq<string>>,
                      meminfo: Option<seq<string>>, stat: Option<seq<string>>)
    requires TickOf(previous, cpuinfo, meminfo, stat).Ok?
    ensures TickOf(previous, cpuinfo, meminfo, stat).value.loads.Some? <==>
      previous.Some? && |previous.value| == |ReadCpuTimesOf(stat).value|
    ensures TickOf(previous, cpuinfo, meminfo, stat).value.loads.Some? ==>
      var loads := TickOf(previous, cpuinfo, meminfo, stat).value.loads.value;
      |loads| == |ReadCpuTimesOf(stat).value| &&
      forall i :: 0 <= i < |loads| ==> 0.0 <= loads[i] <= 100.0
  {
  }

  /** The first refresh has no previous snapshot: it shows "Gathering data...". */
  lemma FirstTickGathers(cpuinfo: Option<seq<string>>, meminfo: Option<seq<string>>, stat: Option<seq<string>>)
    requires TickOf(None, cpuinfo, meminfo, stat).Ok?
    ensures TickOf(None, cpuinfo, meminfo, stat).value.loads.None?
  {
  }

  /**
   * After a successful refresh, the next one with the same number of cores
   * shows a load for each core, computed against the first refresh's counters.
   */
  lemma SecondTickShowsLoads(previous: Option<seq<CpuTimes>>,
                             cpuinfo1: Option<seq<string>>, meminfo1: Option<seq<string>>, stat1: Option<seq<string>>,
                             cpuinfo2: Option<seq<string>>, meminfo2: Option<seq<string>>, stat2: Option<seq<string>>)
    requires TickOf(previous, cpuinfo1, meminfo1, stat1).Ok?
    requires TickOf(NextPrevious(previous, cpuinfo1, meminfo1, stat1), cpuinfo2, meminfo2, stat2).Ok?
    requires |ReadCpuTimesOf(stat2).value| == |ReadCpuTimesOf(stat1).value|
    ensures TickOf(NextPrevious(previous, cpuinfo1, meminfo1, stat1), cpuinfo2, meminfo2, stat2).value.loads ==
      Some(CpuLoads(ReadCpuTimesOf(stat1).value, ReadCpuTimesOf(stat2).value))
  {
  }

  /**
   * The frame's figures agree with one another: usage never exceeds what it
   * is a share of, and the swap figures appear exactly when there is swap.
   */
  lemma FrameConsistent(previous: Option<seq<CpuTimes>>, cpuinfo: Option<seq<string>>,
                        meminfo: Option<seq<string>>, stat: Option<seq<string>>)
    requires TickOf(previous, cpuinfo, meminfo, stat).Ok?
    ensures var f := TickOf(previous, cpuinfo, meminfo, stat).value;
      |f.processor| > 0 &&
      f.cores == ProcessorLines(cpuinfo.value) &&
      0.0 <= f.physicalPercent <= 100.0 &&
      (f.virtualPercent.None? <==> f.swapTotal.None?) &&
      (f.swapTotal.Some? <==> MemInfoOf(meminfo.value).swapTotalKb > 0) &&
      (f.virtualPercent.Some? ==> 0.0 <= f.virtualPercent.value <= 100.0)
  {
    CoreCountIsProcessorLines(CpuDescription("", 0), cpuinfo.value);
  }

  /** The state the main loop carries from one refresh to the next. */
  class ResourceMonitor {
    var previous: Option<seq<CpuTimes>>

    constructor ()
      ensures previous == None
    {
      previous := None;
    }

    /**
     * One iteration of the main loop, on the contents of the three files
     * (None where a file cannot be opened).
     */
    method Tick(cpuinfo: Option<seq<string>>, meminfo: Option<seq<string>>, stat: Option<seq<string>>)
      returns (r: Result<Frame, ProcFile>)
      modifies this
      ensures r == TickOf(old(previous), cpuinfo, meminfo, stat)
      ensures previous == NextPrevious(old(previous), cpuinfo, meminfo, stat)
    {
      var cpu := new CpuInfo();
      var status := cpu.Read(cpuinfo);
      if status != 0 {
        return Err(CpuInfoFile);
      }
      var mem := new MemoryInfo();
      status := mem.Read(meminfo);
      if status != 0 {
        return Err(MemInfoFile);
      }
      var times := ReadCpuTimes(stat);
      if times.Err? {
        return Err(StatFile);
      }
      var current := times.value;

      var loads: Option<seq<real>> := None;
      if previous.Some? && |previous.value| == |current| {
        var buffer := new real[|current|];
        ComputeCpuLoads(previous.value, current, buffer);
        loads := Some(buffer[..]);
      }

      var frame := RenderFigures(cpu.Description(), mem.Sample(), loads);
      r := Ok(frame);
      previous := Some(current);
    }
  }

  /** The figures the loop body formats and prints, from what the readers produced. */
  method RenderFigures(description: CpuDescription, sample: MemorySample, loads: Option<seq<real>>)
    returns (f: Frame)
    ensures f == FrameOf(description, sample, loads)
  {
    var installedValue, installedSuffix := FormatKib(sample.memTotalKb);
    var physicalValue, physicalSuffix := FormatKib(PhysicalUsed(sample));
    var virtualValue, virtualSuffix := FormatKib(VirtualUsed(sample));
    var swapTotal: Option<Quantity> := None;
    if sample.swapTotalKb > 0 {
      var swapValue, swapSuffix := FormatKib(sample.swapTotalKb);
      swapTotal := Some(Quantity(swapValue, swapSuffix));
    }
    f := Frame(ProcessorLabel(description.modelName), description.coreCount,
               Quantity(installedValue, installedSuffix),
               Quantity(physicalValue, physicalSuffix), PhysicalPercent(sample),
               Quantity(virtualValue, virtualSuffix), VirtualPercent(sample),
               swapTotal, loads);
  }
}
