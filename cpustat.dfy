/**
 * `read_cpu_times`: the per-core counter snapshot taken from the leading
 * block of `cpu` lines of `/proc/stat`.
 */
module CpuStat {
  import opened Outcomes
  import opened CText

  /** The eight cumulative counters of one core, in clock ticks. */
  datatype CpuTimes = CpuTimes(
    user: nat, nice: nat, system: nat, idle: nat,
    iowait: nat, irq: nat, softirq: nat, steal: nat)

  /** The counters in the order `/proc/stat` lists them. */
  function Counters(c: CpuTimes): (r: seq<nat>)
    ensures |r| == 8
  {
    [c.user, c.nice, c.system, c.idle, c.iowait, c.irq, c.softirq, c.steal]
  }

  /** Why no snapshot was produced: the file could not be opened, or no core line parsed (`EINVAL`). */
  datatype StatError = OpenFailed | NoCoreLines

  /** `strncmp(line, "cpu", 3) == 0`: the line still belongs to the CPU block. */
  predicate InCpuBlock(line: string) { StartsWith(line, "cpu") }

  /** A digit right after "cpu": a per-core line, not the aggregate `cpu ` line. */
  predicate IsPerCore(line: string) { InCpuBlock(line) && |line| > 3 && IsDigit(line[3]) }

  /** Up to `n` `%llu` conversions in a row from position `i`; the scan stops at the first that fails. */
  function ScanCounters(s: string, i: nat, n: nat): (r: seq<nat>)
    requires i <= |s|
    ensures |r| <= n
    decreases n
  {
    if n == 0 then []
    else match ScanUnsigned(s, i)
      case None => []
      case Some(p) => [p.0] + ScanCounters(s, p.1, n - 1)
  }

  /**
   * The values `sscanf(line, "cpu%*u %llu ... %llu", ...)` assigns: the core
   * number after "cpu" is read and dropped, then up to ten counters follow
   * (the eight kept ones, guest and guest_nice).
   */
  function ScannedValues(line: string): (r: seq<nat>)
    requires IsPerCore(line)
    ensures |r| <= 10
  {
    ScanCounters(line, DigitsEnd(line, 3), 10)
  }

  /** A line the reader stores: a per-core line with at least four converted counters. */
  predicate Kept(line: string)
  {
    IsPerCore(line) && |ScannedValues(line)| >= 4
  }

  /** The `k`-th converted value, or 0 when fewer were converted. */
  function ValueOrZero(v: seq<nat>, k: nat): nat
  {
    if k < |v| then v[k] else 0
  }

  /** The sample `sscanf` fills from the converted values `v`; `CpuTimes current = {0}` zeroes the rest. */
  function SampleOf(v: seq<nat>): CpuTimes
    requires |v| >= 4
  {
    CpuTimes(v[0], v[1], v[2], v[3],
             ValueOrZero(v, 4), ValueOrZero(v, 5), ValueOrZero(v, 6), ValueOrZero(v, 7))
  }

  /** Counter `k` of the sample is the `k`-th converted value; counters that did not convert stay 0. */
  lemma SampleOfCounters(v: seq<nat>)
    requires |v| >= 4
    ensures forall k :: 0 <= k < 8 ==> Counters(SampleOf(v))[k] == ValueOrZero(v, k)
  {
    var c := SampleOf(v);
    forall k | 0 <= k < 8 ensures Counters(c)[k] == ValueOrZero(v, k) {
      if k == 0 {} else if k == 1 {} else if k == 2 {} else if k == 3 {}
      else if k == 4 {} else if k == 5 {} else if k == 6 {} else {}
    }
  }

  /** The sample a kept line gives. */
  function ParseCore(line: string): CpuTimes
    requires Kept(line)
  {
    SampleOf(ScannedValues(line))
  }

  /** The samples of `lines`, read up to the first line outside the CPU block. */
  function CpuTimesOf(lines: seq<string>): seq<CpuTimes>
  {
    if |lines| == 0 || !InCpuBlock(CStr(lines[0])) then []
    else LineSample(CStr(lines[0])) + CpuTimesOf(lines[1..])
  }

  /** What `read_cpu_times` reports for the file `source` (None when it cannot be opened). */
  function ReadCpuTimesOf(source: Option<seq<string>>): Result<seq<CpuTimes>, StatError>
  {
    match source
    case None => Err(OpenFailed)
    case Some(lines) =>
      var times := CpuTimesOf(lines);
      if |times| == 0 then Err(NoCoreLines) else Ok(times)
  }

  /** The sample a line of the CPU block gives, if the reader keeps it. */
  function LineSample(line: string): (r: seq<CpuTimes>)
    requires InCpuBlock(line)
    ensures |r| <= 1
  {
    if Kept(line) then [ParseCore(line)] else []
  }

  /** The loop body of `read_cpu_times` for one line of the CPU block. */
  method ParseCpuLine(line: string) returns (sample: Option<CpuTimes>)
    requires InCpuBlock(line)
    ensures sample.Some? <==> Kept(line)
    ensures LineSample(line) == if sample.Some? then [sample.value] else []
  {
    if !IsPerCore(line) {  // the aggregate `cpu ` line
      return None;
    }
    var values := ScannedValues(line);
    if |values| < 4 {  // a malformed per-core line
      return None;
    }
    return Some(SampleOf(values));
  }

  /** Stores the sample of a kept line after those already read (`times[count++] = current`). */
  method AppendSample(times: seq<CpuTimes>, line: string) returns (times': seq<CpuTimes>)
    requires InCpuBlock(line)
    ensures times' == times + LineSample(line)
  {
    var sample := ParseCpuLine(line);
    if sample.Some? {
      times' := times + [sample.value];
    } else {
      times' := times;
      assert times + [] == times;
    }
  }

  /** `read_cpu_times`, with the array growth replaced by appending to a sequence. */
  method ReadCpuTimes(source: Option<seq<string>>) returns (r: Result<seq<CpuTimes>, StatError>)
    ensures r == ReadCpuTimesOf(source)
    ensures r.Ok? ==> |r.value| >= 1
  {
    if source.None? {
      return Err(OpenFailed);
    }
    var lines := source.value;
    var times: seq<CpuTimes> := [];
    var k := 0;
    while k < |lines|
      invariant 0 <= k <= |lines|
      invariant times + CpuTimesOf(lines[k..]) == CpuTimesOf(lines)
    {
      var line := CStr(lines[k]);
      if !InCpuBlock(line) {
        ReadStop(lines, k, times);
        break;
      }
      ReadStep(lines, k, times);
      times := AppendSample(times, line);
      k := k + 1;
    }
    if k == |lines| {
      ReadEnd(lines, times);
    }
    if |times| == 0 {
      return Err(NoCoreLines);
    }
    r := Ok(times);
  }

  /** The reading loop keeps its invariant over a line of the CPU block. */
  lemma ReadStep(lines: seq<string>, k: nat, times: seq<CpuTimes>)
    requires k < |lines| && InCpuBlock(CStr(lines[k]))
    requires times + CpuTimesOf(lines[k..]) == CpuTimesOf(lines)
    ensures (times + LineSample(CStr(lines[k]))) + CpuTimesOf(lines[k + 1..]) == CpuTimesOf(lines)
  {
    CpuTimesOfStep(lines, k);
    assert times + (LineSample(CStr(lines[k])) + CpuTimesOf(lines[k + 1..])) ==
      (times + LineSample(CStr(lines[k]))) + CpuTimesOf(lines[k + 1..]);
  }

  /** The reading loop leaves at the end of the file with the whole snapshot. */
  lemma ReadEnd(lines: seq<string>, times: seq<CpuTimes>)
    requires times + CpuTimesOf(lines[|lines|..]) == CpuTimesOf(lines)
    ensures times == CpuTimesOf(lines)
  {
    assert lines[|lines|..] == [];
    assert times + [] == times;
  }

  /** The reading loop leaves at the first line outside the CPU block with the whole snapshot. */
  lemma ReadStop(lines: seq<string>, k: nat, times: seq<CpuTimes>)
    requires k < |lines| && !InCpuBlock(CStr(lines[k]))
    requires times + CpuTimesOf(lines[k..]) == CpuTimesOf(lines)
    ensures times == CpuTimesOf(lines)
  {
    assert lines[k..][0] == lines[k];
    assert times + [] == times;
  }

  /** One step of the reading loop over a line of the CPU block. */
  lemma CpuTimesOfStep(lines: seq<string>, k: nat)
    requires k < |lines| && InCpuBlock(CStr(lines[k]))
    ensures CpuTimesOf(lines[k..]) == LineSample(CStr(lines[k])) + CpuTimesOf(lines[k + 1..])
  {
    assert lines[k..][1..] == lines[k + 1..];
  }

  /** The number of leading lines that belong to the CPU block. */
  function BlockLength(lines: seq<string>): (n: nat)
    ensures n <= |lines|
    ensures forall i :: 0 <= i < n ==> InCpuBlock(CStr(lines[i]))
    ensures n < |lines| ==> !InCpuBlock(CStr(lines[n]))
  {
    if |lines| == 0 || !InCpuBlock(CStr(lines[0])) then 0
    else
      var n := BlockLength(lines[1..]);
      assert forall i :: 1 <= i <= n ==> lines[i] == lines[1..][i - 1];
      1 + n
  }

  /** The C strings of the CPU block: the leading lines that start with "cpu". */
  function BlockLines(lines: seq<string>): (b: seq<string>)
    ensures |b| <= |lines|
    ensures forall i :: 0 <= i < |b| ==> b[i] == CStr(lines[i]) && InCpuBlock(b[i])
    ensures |b| < |lines| ==> !InCpuBlock(CStr(lines[|b|]))
  {
    if |lines| == 0 || !InCpuBlock(CStr(lines[0])) then []
    else
      var b := BlockLines(lines[1..]);
      assert forall i :: 1 <= i <= |b| ==> lines[i] == lines[1..][i - 1];
      [CStr(lines[0])] + b
  }

  /** The lines the reader stores, in their order. */
  function KeptLines(ls: seq<string>): (r: seq<string>)
    ensures |r| <= |ls|
    ensures forall l :: l in r ==> l in ls && Kept(l)
    ensures forall l :: l in ls && Kept(l) ==> l in r
  {
    if |ls| == 0 then []
    else (if Kept(ls[0]) then [ls[0]] else []) + KeptLines(ls[1..])
  }

  /** The sample of each kept line. */
  function ParseAll(ls: seq<string>): (r: seq<CpuTimes>)
    requires forall l :: l in ls ==> Kept(l)
    ensures |r| == |ls|
    ensures forall j :: 0 <= j < |r| ==> r[j] == ParseCore(ls[j])
  {
    if |ls| == 0 then [] else [ParseCore(ls[0])] + ParseAll(ls[1..])
  }

  /**
   * The snapshot is the CPU block, filtered down to its kept lines, each
   * parsed: one sample per kept line, in file order.
   */
  lemma {:induction false} SnapshotIsParsedKeptBlock(lines: seq<string>)
    ensures CpuTimesOf(lines) == ParseAll(KeptLines(BlockLines(lines)))
  {
    if |lines| > 0 && InCpuBlock(CStr(lines[0])) {
      SnapshotIsParsedKeptBlock(lines[1..]);
      var l := CStr(lines[0]);
      var b := BlockLines(lines);
      assert b == [l] + BlockLines(lines[1..]);
      assert b[1..] == BlockLines(lines[1..]);
      if Kept(l) {
        assert KeptLines(b) == [l] + KeptLines(BlockLines(lines[1..]));
      } else {
        assert KeptLines(b) == KeptLines(BlockLines(lines[1..]));
      }
    }
  }

  /** The read fails with `EINVAL` exactly when no line of the CPU block is kept. */
  lemma NoCoreLinesIff(lines: seq<string>)
    ensures ReadCpuTimesOf(Some(lines)) == Err(NoCoreLines) <==>
      forall l :: l in BlockLines(lines) ==> !Kept(l)
  {
    SnapshotIsParsedKeptBlock(lines);
    var kept := KeptLines(BlockLines(lines));
    if kept != [] {
      assert kept[0] in kept;
    }
  }

  /** Nothing after the first line outside the CPU block is read. */
  lemma {:induction false} StopsAtBlockEnd(lines: seq<string>, tail: seq<string>)
    requires BlockLength(lines) < |lines|
    ensures CpuTimesOf(lines + tail) == CpuTimesOf(lines)
    decreases |lines|
  {
    assert (lines + tail)[0] == lines[0];
    if InCpuBlock(CStr(lines[0])) {
      assert (lines + tail)[1..] == lines[1..] + tail;
      assert BlockLength(lines[1..]) < |lines[1..]|;
      StopsAtBlockEnd(lines[1..], tail);
    }
  }

  /** The aggregate line contributes no sample. */
  lemma AggregateSkipped(rest: string, lines: seq<string>)
    requires NUL !in rest
    ensures CpuTimesOf(["cpu " + rest] + lines) == CpuTimesOf(lines)
  {
    CStrOfText("cpu " + rest);
    assert (["cpu " + rest] + lines)[1..] == lines;
  }

  /** Counters as the kernel prints them after the `cpu` label: each preceded by a space. */
  function Spaced(vals: seq<nat>): (s: string)
    ensures |s| > 0 ==> s[0] == ' '
  {
    if |vals| == 0 then "" else " " + Decimal(vals[0]) + Spaced(vals[1..])
  }

  /** Printed counters hold no NUL. */
  lemma {:induction false} SpacedHasNoNul(vals: seq<nat>)
    ensures NUL !in Spaced(vals)
  {
    if |vals| > 0 {
      DecimalHasNoNul(vals[0]);
      SpacedHasNoNul(vals[1..]);
    }
  }

  /** The `/proc/stat` line of core `core` with counters `vals`, as proc(5) describes it. */
  function StatLine(core: nat, vals: seq<nat>): string
  {
    "cpu" + Decimal(core) + Spaced(vals) + "\n"
  }

  lemma DecimalHasNoNul(n: nat)
    ensures NUL !in Decimal(n)
  {
    var ds := Decimal(n);
    forall i | 0 <= i < |ds| ensures ds[i] != NUL {
      assert IsDigit(ds[i]);
    }
  }

  /**
   * The counters `vals` printed from position `i` of `t` to its end: each
   * as a space and its decimal digits, then the newline.
   */
  predicate PrintedAt(t: string, i: nat, vals: seq<nat>)
    decreases |vals|
  {
    if |vals| == 0 then i + 1 == |t| && t[i] == '\n'
    else
      var e := i + 1 + |Decimal(vals[0])|;
      e <= |t| && t[i] == ' ' && t[i + 1..e] == Decimal(vals[0]) && PrintedAt(t, e, vals[1..])
  }

  /** One `%llu` conversion followed by the rest of the scan. */
  lemma ScanCountersStep(s: string, i: nat, n: nat, v: nat, j: nat)
    requires i <= |s| && n > 0
    requires ScanUnsigned(s, i) == Some((v, j))
    ensures j <= |s| && ScanCounters(s, i, n) == [v] + ScanCounters(s, j, n - 1)
  {
  }

  /** Every printed counter is read back, and the scan stops at the line end. */
  lemma {:induction false} ScanCountersPrinted(t: string, i: nat, vals: seq<nat>, n: nat)
    requires i <= |t| && PrintedAt(t, i, vals)
    requires |vals| <= n
    ensures ScanCounters(t, i, n) == vals
    decreases |vals|
  {
    if |vals| == 0 {
      if n > 0 {
        assert SkipSpace(t, i) == |t| by {
          assert IsSpace(t[i]);
        }
      }
    } else {
      var v := vals[0];
      var e := i + 1 + |Decimal(v)|;
      assert e == |t| || !IsDigit(t[e]) by {
        if |vals| == 1 {
          assert t[e] == '\n';
        } else {
          assert t[e] == ' ';
        }
      }
      ScanUnsignedPrinted(t, i, i + 1, v);
      ScanCountersStep(t, i, n, v, e);
      ScanCountersPrinted(t, e, vals[1..], n - 1);
      assert [v] + vals[1..] == vals;
    }
  }

  /** The printed counters split after the first one: what is read before the others. */
  lemma SpacedTail(t: string, pre: string, vals: seq<nat>, pre': string)
    requires t == pre + Spaced(vals) + "\n" && |vals| > 0
    requires pre' == pre + " " + Decimal(vals[0])
    ensures t == pre' + Spaced(vals[1..]) + "\n"
  {
    var d := Decimal(vals[0]);
    var rest := Spaced(vals[1..]);
    assert Spaced(vals) == " " + d + rest;
    ConcatAssoc(pre, " " + d, rest);
    ConcatAssoc(pre, " ", d);
  }

  /** What follows the prefix `pre` is the printed form of the counters. */
  lemma {:induction false} SpacedPrinted(t: string, pre: string, vals: seq<nat>)
    requires t == pre + Spaced(vals) + "\n"
    ensures PrintedAt(t, |pre|, vals)
    decreases |vals|
  {
    if |vals| == 0 {
      assert t == pre + "\n";
    } else {
      var d := Decimal(vals[0]);
      var pre' := pre + " " + d;
      SpacedTail(t, pre, vals, pre');
      SpacedPrinted(t, pre', vals[1..]);
      assert t[|pre|] == pre'[|pre|] == ' ';
      assert t[|pre| + 1..|pre'|] == pre'[|pre| + 1..] == d;
    }
  }

  /**
   * `t` is the `/proc/stat` line of core `core` with counters `vals`: "cpu",
   * the core number, then the printed counters up to the newline.
   */
  predicate StatLineAt(t: string, core: nat, vals: seq<nat>)
  {
    var e := 3 + |Decimal(core)|;
    e <= |t| && t[..3] == "cpu" && t[3..e] == Decimal(core) && PrintedAt(t, e, vals)
  }

  /** `StatLine` prints such a line, and it holds no NUL. */
  lemma StatLinePrinted(core: nat, vals: seq<nat>)
    ensures StatLineAt(StatLine(core, vals), core, vals)
    ensures NUL !in StatLine(core, vals)
  {
    var ds := Decimal(core);
    var line := StatLine(core, vals);
    var pre := "cpu" + ds;
    DecimalHasNoNul(core);
    SpacedHasNoNul(vals);
    assert line == pre + Spaced(vals) + "\n";
    SpacedPrinted(line, pre, vals);
    assert line[..3] == "cpu";
    assert line[3..|pre|] == ds;
  }

  /** A per-core line with 4 to 10 counters is kept, and every counter printed is read back. */
  lemma StatLineRoundTrip(t: string, core: nat, vals: seq<nat>)
    requires StatLineAt(t, core, vals) && NUL !in t
    requires 4 <= |vals| <= 10
    ensures CStr(t) == t
    ensures Kept(t) && ScannedValues(t) == vals
    ensures ParseCore(t) == SampleOf(vals)
  {
    var ds := Decimal(core);
    var e := 3 + |ds|;
    CStrOfText(t);
    assert t[3] == t[3..e][0] == ds[0];
    forall k | 3 <= k < e ensures IsDigit(t[k]) {
      assert t[k] == t[3..e][k - 3];
    }
    assert t[e] == ' ';
    DigitsEndOfRun(t, 3, e);
    ScanCountersPrinted(t, e, vals, 10);
  }

  /** A per-core line gives the sample of its counters. */
  lemma StatLineSample(t: string, core: nat, vals: seq<nat>)
    requires StatLineAt(t, core, vals) && NUL !in t
    requires 4 <= |vals| <= 10
    ensures InCpuBlock(CStr(t))
    ensures LineSample(CStr(t)) == [SampleOf(vals)]
  {
    StatLineRoundTrip(t, core, vals);
  }

  /** The aggregate `cpu` line as the kernel prints it: "cpu", then the summed counters. */
  function AggregateLine(vals: seq<nat>): string
  {
    "cpu " + Spaced(vals) + "\n"
  }

  /** The aggregate line belongs to the CPU block but gives no sample. */
  lemma AggregateLineSample(t: string)
    requires StartsWith(t, "cpu ") && NUL !in t
    ensures InCpuBlock(CStr(t))
    ensures LineSample(CStr(t)) == []
  {
    CStrOfText(t);
    AggregateLabel(t);
    NotPerCoreSample(t);
  }

  /** "cpu " starts a line of the CPU block that is not a per-core line. */
  lemma AggregateLabel(t: string)
    requires StartsWith(t, "cpu ")
    ensures InCpuBlock(t) && !IsPerCore(t)
  {
    assert t[..3] == t[..4][..3];
    assert t[3] == t[..4][3];
  }

  /** A line of the CPU block that is not a per-core line gives no sample. */
  lemma NotPerCoreSample(line: string)
    requires InCpuBlock(line) && !IsPerCore(line)
    ensures LineSample(line) == []
  {
  }

  /** A line of the CPU block in front of others contributes its sample, if any. */
  lemma SnapshotCons(line: string, rest: seq<string>)
    requires InCpuBlock(CStr(line))
    ensures CpuTimesOf([line] + rest) == LineSample(CStr(line)) + CpuTimesOf(rest)
  {
    assert ([line] + rest)[1..] == rest;
  }

  /** A line outside the CPU block ends the snapshot. */
  lemma SnapshotStop(line: string, rest: seq<string>)
    requires !InCpuBlock(CStr(line))
    ensures CpuTimesOf([line] + rest) == []
  {
  }

  /** A five-element display followed by more, regrouped one element at a time. */
  lemma FiveThen<T>(a: T, b: T, c: T, d: T, e: T, rest: seq<T>)
    ensures [a, b, c, d, e] + rest == [a] + ([b] + ([c] + ([d] + ([e] + rest))))
  {
  }

  /** Three one-element pieces, behind an empty one and before an empty one. */
  lemma ThreeOf<T>(a: T, b: T, c: T)
    ensures [] + ([a] + ([b] + ([c] + []))) == [a, b, c]
  {
  }

  /**
   * The aggregate line, three per-core lines and the first line after the
   * CPU block give three samples, in core order; nothing after is read.
   */
  lemma ThreeCoreExample(aggregate: string, l0: string, l1: string, l2: string, next: string,
                         c0: seq<nat>, c1: seq<nat>, c2: seq<nat>, after: seq<string>)
    requires StartsWith(aggregate, "cpu ") && NUL !in aggregate
    requires StatLineAt(l0, 0, c0) && NUL !in l0 && 4 <= |c0| <= 10
    requires StatLineAt(l1, 1, c1) && NUL !in l1 && 4 <= |c1| <= 10
    requires StatLineAt(l2, 2, c2) && NUL !in l2 && 4 <= |c2| <= 10
    requires !StartsWith(next, "cpu") && NUL !in next
    ensures ReadCpuTimesOf(Some([aggregate, l0, l1, l2, next] + after))
      == Ok([SampleOf(c0), SampleOf(c1), SampleOf(c2)])
  {
    var r4 := [next] + after;
    var r3 := [l2] + r4;
    var r2 := [l1] + r3;
    var r1 := [l0] + r2;
    FiveThen(aggregate, l0, l1, l2, next, after);
    CStrOfText(next);
    SnapshotStop(next, after);
    StatLineSample(l2, 2, c2);
    SnapshotCons(l2, r4);
    StatLineSample(l1, 1, c1);
    SnapshotCons(l1, r3);
    StatLineSample(l0, 0, c0);
    SnapshotCons(l0, r2);
    AggregateLineSample(aggregate);
    SnapshotCons(aggregate, r1);
    ThreeOf(SampleOf(c0), SampleOf(c1), SampleOf(c2));
  }

  /** The kernel's own lines fit the example: the printed aggregate line and per-core lines. */
  lemma PrintedLinesFit(total: seq<nat>, core: nat, vals: seq<nat>)
    ensures StartsWith(AggregateLine(total), "cpu ") && NUL !in AggregateLine(total)
    ensures StatLineAt(StatLine(core, vals), core, vals) && NUL !in StatLine(core, vals)
  {
    SpacedHasNoNul(total);
    assert AggregateLine(total) == "cpu " + (Spaced(total) + "\n");
    StatLinePrinted(core, vals);
  }
}
