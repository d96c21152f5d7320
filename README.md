# Embedded Linux resource monitor, modelled in Dafny

The monitor (`devEnv/work/1st/src/main.c`) refreshes a text screen every two seconds. Each refresh does the following:

- It reads `/proc/cpuinfo` for the processor's model name and its number of logical cores.
- It reads `/proc/meminfo` for the memory and swap counters.
- It reads the per-core lines of `/proc/stat` for the tick counters of each core.
- It works out physical memory in use, swap in use and their percentages.
- It prints each core's load, computed against the counters of the previous refresh. The first refresh has no previous counters, and a refresh whose core count differs from the previous one has nothing to compare them with; both print "Gathering data..." instead.
- It keeps the current counters as the previous snapshot of the next refresh.

A failure to read any of the three files ends the loop. The lecture program `devEnv/code/lectures/stackOff.c` sums 1 through n recursively.

The model has one module per part of the program:

- `Outcomes`: Option and Result.
- `CText`: C strings over NUL-terminated character arrays. It provides `strlen`, `trim_newline`, and the part of `sscanf` the readers use: whitespace skipping, `%llu` digit runs and literal prefixes.
- `Units`: `format_kib` and the percentages.
- `CpuInfoReader`: `read_cpuinfo`, as a class over the 128-character model-name buffer.
- `MemInfoReader`: `read_meminfo`, as a class over the record's fields.
- `CpuStat`: `read_cpu_times`.
- `Loads`: `compute_cpu_loads`, both as written (`CoreLoadAsWritten`, with its 64-bit wrap) and corrected (`CoreLoad`, which counts no busy ticks when the idle ticks outgrew the total). The array-filling method and the monitor use the corrected formula; see Findings.
- `MemoryCalc`: the used figures and percentages.
- `Monitor`: one refresh of `main`, as a class holding the previous snapshot.
- `RecursiveSum`: `suma`.

Each reader reads the file's lines as `Option<seq<string>>`, where None means the file cannot be opened. Each reader method is proved equal to a pure function of those lines. The pure functions carry the properties.

A line is read the way C reads it: through its C string, that is, up to the first NUL. Two behaviours of the code are worth stating plainly:

- When `/proc/cpuinfo` holds several "model name" lines, the code overwrites the name on each one, so the last one wins, not the first (`CpuInfoReader.LastModelNameWins`).
- Since the counts are in KiB, 1024^3 KiB (1 TiB) reaches the top unit and is shown as TiB, not GiB (`Units.UnitIndexExamples`).

## Model

| member | source | states |
|---|---|---|
| CText.CStr | devEnv/work/1st/src/main.c:43-54 | the C string of a buffer is the longest NUL-free prefix, ended by a NUL when shorter than the buffer |
| CText.StrLen | devEnv/work/1st/src/main.c:49 | `strlen` finds the first NUL; the characters before it are the buffer's C string |
| CText.TrimmedNewline | devEnv/work/1st/src/main.c:43-54 | the result differs from the string exactly when the string is non-empty and ends in '\n' or '\r', and then it drops that one character |
| CText.TrimNewline | devEnv/work/1st/src/main.c:43-54 | `trim_newline` in place: the buffer's new C string is the trimmed old one, and the only characters written are NULs |
| CText.FirstIndex | devEnv/work/1st/src/main.c:87 | `strchr`: None exactly when the character is absent; otherwise the first position holding it |
| CText.SkipSpaceStops | devEnv/work/1st/src/main.c:122-150 | a space in an `sscanf` format skips every C whitespace character and stops at the first that is not one |
| CText.DigitsEndStops | devEnv/work/1st/src/main.c:198-210 | a `%llu` conversion consumes exactly the maximal run of decimal digits |
| CText.ScanUnsignedSome | devEnv/work/1st/src/main.c:198-210 | a `%llu` conversion succeeds exactly when the first character after the skipped whitespace is a digit |
| CText.ScanUnsigned | devEnv/work/1st/src/main.c:198-210 | one `%llu` conversion: skip whitespace, read the maximal digit run; on success it ends after the starting position and within the line (when it succeeds is stated by `ScanUnsignedSome`, what it reads by `ScanUnsignedPrinted`) |
| CText.DecimalRoundTrip | devEnv/work/1st/src/main.c:198-210 | reading the decimal digits of a counter gives back that counter |
| CText.ScanUnsignedPrinted | devEnv/work/1st/src/main.c:198-210 | a counter printed in decimal after whitespace and followed by a non-digit is scanned back to its value, ending after its digits |
| Units.UnitIndex | devEnv/work/1st/src/main.c:56-69 | the unit is the number of thresholds 1024, 1024^2 and 1024^3 reached, one of the four suffixes |
| Units.Shown | devEnv/work/1st/src/main.c:56-69 | the printed value times the unit's scale is the count; it is below 1024 except in TiB and at least 1 except in KiB |
| Units.FormatKib | devEnv/work/1st/src/main.c:56-69 | the loop of `format_kib` divides by 1024 until the value is below 1024 or the unit is TiB, giving the quantity `Shown` describes |
| Units.UnitIndexMonotone | devEnv/work/1st/src/main.c:62-66 | a larger count never gets a smaller unit |
| Units.UnitIndexExamples | devEnv/work/1st/src/main.c:58 | the boundaries: 1023 KiB stays KiB, 1024 is MiB, 1024^2 is GiB, 1024^3 and beyond is TiB |
| Units.Percent | devEnv/work/1st/src/main.c:267 | `part * 100.0 / whole` is the share in percent: between 0 and 100 when the part does not exceed the whole, 100 for the whole, 0 for nothing |
| CpuInfoReader.SkipBlanks | devEnv/work/1st/src/main.c:90-94 | strips exactly the leading spaces and tabs |
| CpuInfoReader.ModelValue | devEnv/work/1st/src/main.c:88-97 | the stored model name fits the 128-byte buffer, starts after the blanks, and is a prefix of the text after the colon |
| CpuInfoReader.CoreCountIsProcessorLines | devEnv/work/1st/src/main.c:100-103 | the core count is the number of lines that start with "processor" |
| CpuInfoReader.ModelNameUntouched | devEnv/work/1st/src/main.c:79-104 | with no "model name" line holding a colon, the model name stays as it was |
| CpuInfoReader.LastModelNameWins | devEnv/work/1st/src/main.c:85-99 | the model name is the value of the last "model name" line holding a colon |
| CpuInfoReader.ModelLine | devEnv/work/1st/src/main.c:85-98 | a "model name" line stores the text after the colon and the blanks, cut to 127 characters, without a trailing newline, and leaves the count alone |
| CpuInfoReader.ScanCpuInfoLine | devEnv/work/1st/src/main.c:85-103 | one line adds a core exactly when it starts with "processor" (a "model name" line never does, so the `else if` loses nothing), and sets the model name to `ModelValue` of the text after the first colon exactly when it starts with "model name" and holds a colon; otherwise the name stays |
| CpuInfoReader.CpuInfoOf | devEnv/work/1st/src/main.c:79-104 | from the reset record, the core count is the number of "processor" lines, and with no "model name" line holding a colon the name stays empty (the last such line wins, by `LastModelNameWins`) |
| CpuInfoReader.SkipBlanksFrom | devEnv/work/1st/src/main.c:90-94 | the pointer walk over blanks stops where `SkipBlanks` does |
| CpuInfoReader.CopyTruncated | devEnv/work/1st/src/main.c:95-96 | `strncpy` plus the forced NUL leave the buffer's C string as the first 127 characters of the source |
| CpuInfoReader.CpuInfo.SetModelName | devEnv/work/1st/src/main.c:95-97 | the buffer's C string becomes the truncated value without its trailing newline |
| CpuInfoReader.CpuInfo.constructor | devEnv/work/1st/src/main.c:79-80 | a fresh 128-character buffer holding the empty name, and no cores |
| CpuInfoReader.CpuInfo.ReadLine | devEnv/work/1st/src/main.c:85-103 | one line changes the record as `ScanCpuInfoLine` says |
| CpuInfoReader.CpuInfo.Read | devEnv/work/1st/src/main.c:71-108 | -1 and an untouched record when the file cannot be opened; otherwise 0 and the record `CpuInfoOf` gives for the lines |
| MemInfoReader.Set | devEnv/work/1st/src/main.c:122-150 | storing a counter changes that counter alone; storing `MemAvailable` also records that it was present |
| MemInfoReader.FirstMatch | devEnv/work/1st/src/main.c:122-150 | the patterns are tried in order; none matches exactly when every scan fails |
| MemInfoReader.ScanLabeled | devEnv/work/1st/src/main.c:122-150 | `sscanf(line, "<label> %llu kB")` returns 1 only on a line that starts with the label; the `%llu` after it then decides, as `ScanUnsigned` does, and the " kB" after the number is not needed |
| MemInfoReader.ScanMemLine | devEnv/work/1st/src/main.c:122-150 | one line stores at most one counter, that of the first pattern it matches; `ScanMemLineGet` states its effect counter by counter |
| MemInfoReader.LabelsExclusive | devEnv/work/1st/src/main.c:122-150 | no line can start with two different labels, so the order of the attempts never hides a match |
| MemInfoReader.MatchIsLabel | devEnv/work/1st/src/main.c:122-150 | a line stores counter f with value v exactly when f's own pattern scans v from it |
| MemInfoReader.ScanMemLineGet | devEnv/work/1st/src/main.c:122-150 | after one line, each counter is the value its pattern scanned, or is unchanged |
| MemInfoReader.CounterUntouched | devEnv/work/1st/src/main.c:118-151 | a counter no line matches keeps its initial value |
| MemInfoReader.LastLineWins | devEnv/work/1st/src/main.c:118-151 | a counter holds the value of the last line that matches its pattern |
| MemInfoReader.HasMemAvailableIff | devEnv/work/1st/src/main.c:126-130 | `has_mem_available` is set exactly when some line matches the `MemAvailable` pattern |
| MemInfoReader.MemInfoOf | devEnv/work/1st/src/main.c:118-151 | from the zeroed record, `has_mem_available` is set exactly when some line matches the `MemAvailable` pattern, and a counter no line matches stays 0 |
| MemInfoReader.MemoryInfo.constructor | devEnv/work/1st/src/main.c:118 | the zeroed record |
| MemInfoReader.MemoryInfo.Store | devEnv/work/1st/src/main.c:122-150 | the record changes as `Set` says |
| MemInfoReader.MemoryInfo.ReadLine | devEnv/work/1st/src/main.c:122-150 | one line changes the record as `ScanMemLine` says |
| MemInfoReader.MemoryInfo.Read | devEnv/work/1st/src/main.c:110-155 | -1 and an untouched record when the file cannot be opened; otherwise 0 and the record `MemInfoOf` gives for the lines |
| CpuStat.SampleOfCounters | devEnv/work/1st/src/main.c:195-210 | the counters the line did not supply stay 0 |
| CpuStat.ScannedValues | devEnv/work/1st/src/main.c:198-210 | the values `sscanf` converts after "cpu" and the dropped core number: at most ten, stopping at the first failed conversion (read back by `ScanCountersPrinted`) |
| CpuStat.Kept | devEnv/work/1st/src/main.c:176-217 | a line is stored when a digit follows "cpu" and at least four counters convert (`ParseCpuLine`, `KeptLines`) |
| CpuStat.SampleOf | devEnv/work/1st/src/main.c:195-210 | the sample from the converted values, the rest 0 (`SampleOfCounters`) |
| CpuStat.LineSample | devEnv/work/1st/src/main.c:176-217 | a line of the block gives at most one sample, its own when it is kept |
| CpuStat.CpuTimesOf | devEnv/work/1st/src/main.c:170-218 | the samples of the lines up to the first line outside the block, in order (`SnapshotIsParsedKeptBlock`, `StopsAtBlockEnd`) |
| CpuStat.ReadCpuTimesOf | devEnv/work/1st/src/main.c:157-232 | failure when the file cannot be opened, `EINVAL` when there is no core, otherwise the snapshot (`NoCoreLinesIff`, `ReadCpuTimes`) |
| CpuStat.ParseCpuLine | devEnv/work/1st/src/main.c:176-217 | a line gives a sample exactly when it is a per-core line with at least four counters |
| CpuStat.AppendSample | devEnv/work/1st/src/main.c:195-217 | the snapshot grows by that line's sample, if any |
| CpuStat.ReadCpuTimes | devEnv/work/1st/src/main.c:157-232 | the loop's result is `ReadCpuTimesOf` of the file; a success holds at least one core |
| CpuStat.CpuTimesOfStep | devEnv/work/1st/src/main.c:170-218 | each line of the leading "cpu" block adds its own sample in order |
| CpuStat.BlockLines | devEnv/work/1st/src/main.c:172-175 | the block read is the leading run of lines starting with "cpu", ended by the first that does not |
| CpuStat.KeptLines | devEnv/work/1st/src/main.c:176-215 | the lines kept are exactly the per-core lines with at least four counters |
| CpuStat.SnapshotIsParsedKeptBlock | devEnv/work/1st/src/main.c:157-232 | the snapshot is the kept lines of the leading block, parsed in order |
| CpuStat.NoCoreLinesIff | devEnv/work/1st/src/main.c:222-227 | the read fails for lack of cores exactly when no line of the block is kept |
| CpuStat.StopsAtBlockEnd | devEnv/work/1st/src/main.c:172-175 | lines after the end of the block never change the snapshot |
| CpuStat.AggregateSkipped | devEnv/work/1st/src/main.c:176-179 | the aggregate "cpu " line adds nothing |
| CpuStat.ScanCountersPrinted | devEnv/work/1st/src/main.c:198-210 | counters printed one per space-separated field are scanned back in order |
| CpuStat.StatLineRoundTrip | devEnv/work/1st/src/main.c:195-215 | a "cpuN" line printed with 4 to 10 counters is kept, and its sample holds the first eight counters (0 where fewer were printed) |
| CpuStat.ThreeCoreExample | devEnv/work/1st/src/main.c:157-232 | aggregate line, three core lines, then another line: exactly the three cores' samples, in order |
| Loads.ClampedDiff | devEnv/work/1st/src/main.c:249-259 | the elapsed count when the counter did not go backwards, 0 when it did |
| Loads.IdleTime | devEnv/work/1st/src/main.c:238-239 | the idle ticks are the fourth and fifth counters of the line, idle and iowait |
| Loads.NonIdleTime | devEnv/work/1st/src/main.c:241-244 | the busy ticks are the other six counters the reader keeps |
| Loads.TotalTime | devEnv/work/1st/src/main.c:246-247 | the total counts each of the eight counters exactly once |
| Loads.TotalDiff | devEnv/work/1st/src/main.c:249-253 | `total_diff`: the growth of the total when it did not go backwards, 0 when it did |
| Loads.IdleDiff | devEnv/work/1st/src/main.c:255-259 | `idle_diff`: the growth of the idle ticks when they did not go backwards, 0 when they did |
| Loads.CoreLoadAsWritten | devEnv/work/1st/src/main.c:261-268 | the load as the code computes it: 0 with no elapsed tick, otherwise the wrapped `(total_diff - idle_diff) mod 2^64` times 100 over `total_diff`; never negative, and at most 100 when `idle_diff` does not exceed `total_diff` |
| Loads.BusyDiff | devEnv/work/1st/src/main.c:267 | the corrected busy count in place of the code's `total_diff - idle_diff`: it never exceeds the elapsed ticks; when the idle ticks do not exceed the elapsed ones, it and the idle ticks make up the elapsed ticks (as the code's difference does); otherwise it is 0, where the code's difference wraps |
| Loads.CoreLoad | devEnv/work/1st/src/main.c:261-268 | a core's load is between 0 and 100; it is 0 when no tick elapsed, and otherwise the busy share of the elapsed ticks |
| Loads.AsWrittenAgrees | devEnv/work/1st/src/main.c:261-268 | wherever the idle ticks did not outgrow the elapsed ones, the code's formula equals the corrected one |
| Loads.AsWrittenDiffersIff | devEnv/work/1st/src/main.c:261-268 | within 64 bits, the code's formula and the corrected one differ exactly when `idle_diff` exceeds a non-zero `total_diff` |
| Loads.MonotoneIdleWithinTotal | devEnv/work/1st/src/main.c:238-259 | with counters that only grow, the elapsed ticks are the idle ones plus the non-idle ones |
| Loads.MonotoneLoadBounded | devEnv/work/1st/src/main.c:234-270 | with counters that only grow, the code's load lies in [0, 100] |
| Loads.IdenticalSnapshotsIdle | devEnv/work/1st/src/main.c:261-264 | two identical snapshots give 0 |
| Loads.IdleGrowthOnly | devEnv/work/1st/src/main.c:261-268 | growth in idle and iowait alone gives 0 |
| Loads.UserGrowthOnly | devEnv/work/1st/src/main.c:261-268 | growth in user time alone gives 100 |
| Loads.AsWrittenExceedsHundred | devEnv/work/1st/src/main.c:267 | the wrap: user 10 then 5 with idle 0 then 10 prints far above 100 percent, where the corrected load is 0 |
| Loads.CpuLoads | devEnv/work/1st/src/main.c:234-270 | one load per core, each from that core's two samples |
| Loads.CpuLoadsAsWrittenWhenMonotone | devEnv/work/1st/src/main.c:234-270 | when no core's counters went backwards and the totals fit in 64 bits, every load equals the value the code's own formula stores |
| Loads.LoadsArePercentages | devEnv/work/1st/src/main.c:234-270 | every load is between 0 and 100 |
| Loads.ComputeCpuLoads | devEnv/work/1st/src/main.c:234-270 | the array ends up holding `CpuLoads` of the two snapshots |
| MemoryCalc.PhysicalUsed | devEnv/work/1st/src/main.c:272-290 | never more than the total; the total less `MemAvailable` when that is present and fits, else the total less free, buffers and cache if those fit, else the total less free if that fits, else 0 |
| MemoryCalc.VirtualUsed | devEnv/work/1st/src/main.c:292-299 | never more than the swap total; the total less free swap if that fits, else 0 |
| MemoryCalc.PhysicalPercent | devEnv/work/1st/src/main.c:370-374 | between 0 and 100; 0 with no total; otherwise the used share of the total |
| MemoryCalc.VirtualPercent | devEnv/work/1st/src/main.c:375-389 | absent ("n/a") exactly when there is no swap; otherwise between 0 and 100, the used share of the swap total |
| MemoryCalc.AvailableDecides | devEnv/work/1st/src/main.c:274-277 | with a usable `MemAvailable`, free memory, buffers and cache do not affect the figure |
| MemoryCalc.MoreAvailableLessUsed | devEnv/work/1st/src/main.c:274-277 | while `MemAvailable` stays within the total, a larger `MemAvailable` never means more in use |
| MemoryCalc.AvailableBeyondTotalFallsBack | devEnv/work/1st/src/main.c:274-282 | beyond the total `MemAvailable` is ignored and the fallback applies, so the figure jumps: total 1000, free 300, buffers 100, cached 100 gives 0 in use with 1000 available and 500 with 1001 |
| MemoryCalc.FallbackOrder | devEnv/work/1st/src/main.c:279-287 | the first fallback never reports more in use than the second |
| MemoryCalc.SwapAllFree | devEnv/work/1st/src/main.c:292-299 | all swap free gives 0 in use and 0 percent |
| MemoryCalc.WorkedExamples | devEnv/work/1st/src/main.c:272-299 | 1000 KiB with 400 available is 600 (60 %); without `MemAvailable`, 200 free, 100 buffers and 200 cached is 500; each other fallback branch on figures; 2000 KiB swap with 500 free is 75 % |
| Monitor.ProcessorLabel | devEnv/work/1st/src/main.c:395 | exactly "Unknown" when the model name is empty, otherwise the name itself; never empty |
| Monitor.FrameOf | devEnv/work/1st/src/main.c:357-409 | the figures of one frame from the three readers' results, as `FrameConsistent` states them |
| Monitor.RenderFigures | devEnv/work/1st/src/main.c:357-409 | the sizes formatted with `format_kib`, the percentages and the optional swap total make up exactly the frame `FrameOf` describes |
| Monitor.TickOf | devEnv/work/1st/src/main.c:319-409 | one refresh: the first file that fails to read, or the frame (`FailureOrder`, `LoadsShownIff`, `FrameConsistent`) |
| Monitor.NextPrevious | devEnv/work/1st/src/main.c:426-429 | after a successful refresh the previous snapshot is this refresh's counters (`SecondTickShowsLoads`) |
| Monitor.LoadsFor | devEnv/work/1st/src/main.c:345-355 | loads exist exactly when there is a previous snapshot with as many cores, and each is that core's load |
| Monitor.FailureOrder | devEnv/work/1st/src/main.c:326-343 | cpuinfo, meminfo and stat are read in that order; the first failure is the one reported; the refresh succeeds exactly when all three are read and stat holds a core |
| Monitor.LoadsShownIff | devEnv/work/1st/src/main.c:345-355 | a successful refresh shows loads exactly when the previous snapshot has as many cores, one percentage per core |
| Monitor.FirstTickGathers | devEnv/work/1st/src/main.c:315-316 | the first refresh shows "Gathering data..." |
| Monitor.SecondTickShowsLoads | devEnv/work/1st/src/main.c:426-429 | after a successful refresh, the next one with the same core count shows the loads against the first one's counters |
| Monitor.FrameConsistent | devEnv/work/1st/src/main.c:357-409 | the frame names a processor, counts the "processor" lines, has a physical percentage in [0, 100], and has the swap total and swap percentage exactly when the swap total read is non-zero |
| Monitor.ResourceMonitor.constructor | devEnv/work/1st/src/main.c:315-316 | no previous snapshot |
| Monitor.ResourceMonitor.Tick | devEnv/work/1st/src/main.c:319-429 | one iteration returns the frame or failure `TickOf` describes, and the previous snapshot becomes this refresh's counters |
| RecursiveSum.Suma | devEnv/code/lectures/stackOff.c:22-28 | the sum up to i, for i of at least 1, is at least i |
| RecursiveSum.SumaIsTotal | devEnv/code/lectures/stackOff.c:17-21 | `suma(i)` adds exactly the numbers 1 through i |
| RecursiveSum.SumaClosedForm | devEnv/code/lectures/stackOff.c:5-6 | twice `suma(i)` is i * (i + 1) |
| RecursiveSum.SumaExamples | devEnv/code/lectures/stackOff.c:8-10 | `suma(5)` is 15, and the program's `suma(1000)` is 500500, well within an `unsigned long` |

## Left out

- File access: `fopen`, `fgets` and `fclose` are not modelled. A file is its sequence of lines, or None when it cannot be opened. Lines longer than the `fgets` buffers (512 and 256 bytes), which the C code would read in pieces, are taken whole.
- `errno`, `print_error` and `strerror`: a failure is modelled as the file that failed, not as its message.
- Rendering: `printf`, `snprintf` with `%.2f`, the ANSI clear-screen codes, `fflush`, `sleep` and the endless loop. A refresh's frame holds the values that are printed.
- Doubles: loads, percentages and scaled sizes are exact reals. `format_kib` picks the same unit as the doubles would, since the thresholds and the divisions by 1024 are exact in binary floating point. The digits printed after rounding are not modelled.
- Allocation: memory failure of `realloc` in `read_cpu_times` (which makes it return -1) and of `malloc` for the loads (which makes `main` print "Gathering data..."). Dafny's allocation does not fail. The snapshot's growable array is a sequence.
- 64-bit counters: counters are unbounded naturals, so `%llu` saturation on overflow and wrap-around in the sums of `compute_cpu_loads` and `calculate_physical_used` are not modelled. The one wrap that matters for realistic counters, `total_diff - idle_diff`, is under Findings.
- Bytes: a Dafny `char` stands for one byte of a line, so the 127-character limit of `CpuInfoReader.ModelValue` and `CpuInfoReader.CopyTruncated` is the 127-byte limit of main.c:95; multi-byte characters are not modelled.
- `sscanf` details that `/proc` files do not exercise: a sign before a `%llu` number, the locale, and `isspace` beyond the C locale's six whitespace characters.
- Loads.ComputeCpuLoads, Loads.CpuLoads, Monitor.LoadsFor: these compute the corrected `CoreLoad`, not the code's value at main.c:267. They differ from the code exactly when a core's `idle_diff` exceeds a non-zero `total_diff` (`Loads.AsWrittenDiffersIff`, within 64 bits); with no elapsed tick both store 0. In the differing case the code stores a wrapped difference (over 100 percent), and the model stores the corrected load, 0 busy ticks. Otherwise `Loads.AsWrittenAgrees` proves the two equal, and `Loads.CpuLoadsAsWrittenWhenMonotone` does so for whole snapshots whose counters only grow. `Monitor.TickOf` and `Monitor.ResourceMonitor.Tick` show these corrected loads.
- Loads.AsWrittenAgrees, Loads.AsWrittenDiffersIff, Loads.MonotoneLoadBounded, Loads.UserGrowthOnly: these require the elapsed ticks (for `AsWrittenDiffersIff` also the elapsed idle ticks), or the sum of the current counters, to be below 2^64. This is a property of the source's `unsigned long long`, which the model's unbounded counters do not have.
- Monitor.ResourceMonitor.Tick: after a failed read the source leaves the loop for good. The model keeps the old previous snapshot instead.
- RecursiveSum.Suma: `suma(0)` recurses until the stack overflows, as the lecture's file name says. The model requires i >= 1, as the source's documentation does. Stack depth and the `unsigned long` wrap of very large sums are not modelled.
- `hello.c` and the build files are not part of this model.

## Findings

| source | as written | input that shows it | evidently intended | confidence | as-written member | corrected member |
|---|---|---|---|---|---|---|
| devEnv/work/1st/src/main.c:267 | `(double)(total_diff - idle_diff)` subtracts two `unsigned long long` values. When the idle ticks grew by more than a non-zero clamped total, the difference wraps to nearly 2^64. | previous user=10, all else 0; current user=5, idle=10: `total_diff`=5, `idle_diff`=10, so the load is (2^64-5)*100/5 percent | a load between 0 and 100, with no busy ticks counted when idle time outgrew the total | not executed | Loads.CoreLoadAsWritten (shown by Loads.AsWrittenExceedsHundred) | Loads.CoreLoad (Loads.AsWrittenAgrees, Loads.AsWrittenDiffersIff, Loads.MonotoneLoadBounded) |
