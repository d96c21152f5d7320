/**
 * `read_meminfo`: the memory and swap counters of `/proc/meminfo`, each read
 * from a line of the form `<label> <digits> kB`.
 */
module MemInfoReader {
  import opened Outcomes
  import opened CText

  /** The `MemoryInfo` record as a value; all counters are in KiB. */
  datatype MemorySample = MemorySample(
    memTotalKb: nat,
    memAvailableKb: nat,
    memFreeKb: nat,
    buffersKb: nat,
    cachedKb: nat,
    swapTotalKb: nat,
    swapFreeKb: nat,
    hasMemAvailable: bool)

  /** The record `memset` leaves: every counter 0, no `MemAvailable`. */
  const ZeroSample := MemorySample(0, 0, 0, 0, 0, 0, 0, false)

  /** The counters a line can set. */
  datatype Field = MemTotal | MemAvailable | MemFree | Buffers | Cached | SwapTotal | SwapFree

  /** The order in which the reader tries the patterns. */
  const Fields: seq<Field> := [MemTotal, MemAvailable, MemFree, Buffers, Cached, SwapTotal, SwapFree]

  /** The position of `f` among the attempts. */
  function Position(f: Field): (i: nat)
    ensures i < |Fields| && Fields[i] == f
  {
    match f
    case MemTotal => 0
    case MemAvailable => 1
    case MemFree => 2
    case Buffers => 3
    case Cached => 4
    case SwapTotal => 5
    case SwapFree => 6
  }

  function Label(f: Field): string
  {
    match f
    case MemTotal => "MemTotal:"
    case MemAvailable => "MemAvailable:"
    case MemFree => "MemFree:"
    case Buffers => "Buffers:"
    case Cached => "Cached:"
    case SwapTotal => "SwapTotal:"
    case SwapFree => "SwapFree:"
  }

  function Get(m: MemorySample, f: Field): nat
  {
    match f
    case MemTotal => m.memTotalKb
    case MemAvailable => m.memAvailableKb
    case MemFree => m.memFreeKb
    case Buffers => m.buffersKb
    case Cached => m.cachedKb
    case SwapTotal => m.swapTotalKb
    case SwapFree => m.swapFreeKb
  }

  /** Storing a parsed value: only that counter changes; `MemAvailable` also raises the flag. */
  function Set(m: MemorySample, f: Field, v: nat): (r: MemorySample)
    ensures forall g :: Get(r, g) == if g == f then v else Get(m, g)
    ensures r.hasMemAvailable == (m.hasMemAvailable || f == MemAvailable)
  {
    match f
    case MemTotal => m.(memTotalKb := v)
    case MemAvailable => m.(memAvailableKb := v, hasMemAvailable := true)
    case MemFree => m.(memFreeKb := v)
    case Buffers => m.(buffersKb := v)
    case Cached => m.(cachedKb := v)
    case SwapTotal => m.(swapTotalKb := v)
    case SwapFree => m.(swapFreeKb := v)
  }

  /**
   * `sscanf(line, "<label> %llu kB", &x) == 1`: the label literally, then
   * whitespace, then at least one digit.  What follows the digits does not
   * matter, since the count of conversions is 1 as soon as the number is read.
   */
  function ScanLabeled(line: string, lit: string): (r: Option<nat>)
    ensures r.Some? ==> StartsWith(line, lit)
  {
    if StartsWith(line, lit) then
      match ScanUnsigned(line, |lit|)
      case None => None
      case Some(p) => Some(p.0)
    else None
  }

  /** The first pattern among `fs` that `line` matches, with the value it reads. */
  function FirstMatch(line: string, fs: seq<Field>): (r: Option<(Field, nat)>)
    ensures r.None? <==> forall i :: 0 <= i < |fs| ==> ScanLabeled(line, Label(fs[i])).None?
    ensures r.Some? ==> r.value.0 in fs && ScanLabeled(line, Label(r.value.0)) == Some(r.value.1)
  {
    if |fs| == 0 then None
    else match ScanLabeled(line, Label(fs[0]))
      case Some(v) => Some((fs[0], v))
      case None =>
        var r := FirstMatch(line, fs[1..]);
        assert forall i :: 1 <= i < |fs| ==> fs[i] == fs[1..][i - 1];
        r
  }

  /** No line starts with two of the labels. */
  lemma LabelsExclusive(line: string, f: Field, g: Field)
    requires StartsWith(line, Label(f)) && StartsWith(line, Label(g))
    ensures f == g
  {
    var a, b := Label(f), Label(g);
    assert line[0] == a[0] == b[0];
    assert line[3] == a[3] == b[3];
    assert line[4] == a[4] == b[4];
  }

  /** The pattern a line matches is the one whose label starts it, so the order of attempts does not matter. */
  lemma MatchIsLabel(line: string, f: Field, v: nat)
    ensures FirstMatch(line, Fields) == Some((f, v)) <==> ScanLabeled(line, Label(f)) == Some(v)
  {
    if ScanLabeled(line, Label(f)) == Some(v) {
      var r := FirstMatch(line, Fields);
      assert Fields[Position(f)] == f;
      assert r.Some?;
      LabelsExclusive(line, f, r.value.0);
    }
  }

  /** One iteration of the reading loop: at most one counter changes, that of the first pattern matched. */
  function ScanMemLine(m: MemorySample, line: string): MemorySample
  {
    match FirstMatch(line, Fields)
    case None => m
    case Some(p) => Set(m, p.0, p.1)
  }

  lemma ScanMemLineMatch(m: MemorySample, line: string, f: Field, v: nat)
    requires ScanLabeled(line, Label(f)) == Some(v)
    ensures ScanMemLine(m, line) == Set(m, f, v)
  {
    MatchIsLabel(line, f, v);
  }

  lemma ScanMemLineNoMatch(m: MemorySample, line: string)
    requires forall f :: ScanLabeled(line, Label(f)).None?
    ensures ScanMemLine(m, line) == m
  {
  }

  /** The value a raw `fgets` line gives to counter `f`, if it matches `f`'s pattern. */
  function Parsed(line: string, f: Field): Option<nat>
  {
    ScanLabeled(CStr(line), Label(f))
  }

  function MemInfoFrom(m: MemorySample, lines: seq<string>): MemorySample
    decreases |lines|
  {
    if |lines| == 0 then m else MemInfoFrom(ScanMemLine(m, CStr(lines[0])), lines[1..])
  }

  /** The record `read_meminfo` produces from the lines of the file. */
  function MemInfoOf(lines: seq<string>): (r: MemorySample)
    ensures r.hasMemAvailable <==> exists i :: 0 <= i < |lines| && Parsed(lines[i], MemAvailable).Some?
    ensures forall f :: (forall i :: 0 <= i < |lines| ==> Parsed(lines[i], f).None?) ==> Get(r, f) == 0
  {
    HasMemAvailableIff(ZeroSample, lines);
    forall f | forall i :: 0 <= i < |lines| ==> Parsed(lines[i], f).None?
      ensures Get(MemInfoFrom(ZeroSample, lines), f) == 0
    {
      CounterUntouched(ZeroSample, lines, f);
    }
    MemInfoFrom(ZeroSample, lines)
  }

  lemma ScanMemLineGet(m: MemorySample, line: string, f: Field)
    ensures Get(ScanMemLine(m, line), f) ==
      match ScanLabeled(line, Label(f)) case Some(v) => v case None => Get(m, f)
    ensures ScanMemLine(m, line).hasMemAvailable ==
      (m.hasMemAvailable || ScanLabeled(line, Label(MemAvailable)).Some?)
  {
    match FirstMatch(line, Fields)
    case None =>
      assert Fields[Position(f)] == f;
      assert Fields[1] == MemAvailable;
    case Some(p) =>
      MatchIsLabel(line, p.0, p.1);
      if ScanLabeled(line, Label(f)).Some? {
        LabelsExclusive(line, f, p.0);
      }
      if ScanLabeled(line, Label(MemAvailable)).Some? {
        LabelsExclusive(line, MemAvailable, p.0);
      }
  }

  /** A counter with no matching line keeps its starting value. */
  lemma {:induction false} CounterUntouched(m: MemorySample, lines: seq<string>, f: Field)
    requires forall i :: 0 <= i < |lines| ==> Parsed(lines[i], f).None?
    ensures Get(MemInfoFrom(m, lines), f) == Get(m, f)
    decreases |lines|
  {
    if |lines| > 0 {
      ScanMemLineGet(m, CStr(lines[0]), f);
      CounterUntouched(ScanMemLine(m, CStr(lines[0])), lines[1..], f);
    }
  }

  /** Later lines with the same label overwrite earlier ones: the last matching line decides. */
  lemma {:induction false} LastLineWins(m: MemorySample, lines: seq<string>, f: Field, i: nat)
    requires i < |lines| && Parsed(lines[i], f).Some?
    requires forall j :: i < j < |lines| ==> Parsed(lines[j], f).None?
    ensures Get(MemInfoFrom(m, lines), f) == Parsed(lines[i], f).value
    decreases |lines|
  {
    var m' := ScanMemLine(m, CStr(lines[0]));
    ScanMemLineGet(m, CStr(lines[0]), f);
    if i == 0 {
      CounterUntouched(m', lines[1..], f);
    } else {
      LastLineWins(m', lines[1..], f, i - 1);
    }
  }

  /** `has_mem_available` is set exactly when some line matched the `MemAvailable:` pattern. */
  lemma {:induction false} HasMemAvailableIff(m: MemorySample, lines: seq<string>)
    ensures MemInfoFrom(m, lines).hasMemAvailable <==>
      m.hasMemAvailable || exists i :: 0 <= i < |lines| && Parsed(lines[i], MemAvailable).Some?
    decreases |lines|
  {
    if |lines| > 0 {
      ScanMemLineGet(m, CStr(lines[0]), MemAvailable);
      HasMemAvailableIff(ScanMemLine(m, CStr(lines[0])), lines[1..]);
      if exists i :: 0 <= i < |lines| && Parsed(lines[i], MemAvailable).Some? {
        var i :| 0 <= i < |lines| && Parsed(lines[i], MemAvailable).Some?;
        if i > 0 {
          assert lines[1..][i - 1] == lines[i];
        }
      }
      forall i | 0 <= i < |lines| - 1 ensures lines[1..][i] == lines[i + 1] { }
    }
  }

  /** The `MemoryInfo` record the reader fills in place. */
  class MemoryInfo {
    var memTotalKb: nat
    var memAvailableKb: nat
    var memFreeKb: nat
    var buffersKb: nat
    var cachedKb: nat
    var swapTotalKb: nat
    var swapFreeKb: nat
    var hasMemAvailable: bool

    /** The record's contents as a value. */
    function Sample(): MemorySample
      reads this
    {
      MemorySample(memTotalKb, memAvailableKb, memFreeKb, buffersKb, cachedKb,
                   swapTotalKb, swapFreeKb, hasMemAvailable)
    }

    constructor ()
      ensures Sample() == ZeroSample
    {
      memTotalKb, memAvailableKb, memFreeKb := 0, 0, 0;
      buffersKb, cachedKb, swapTotalKb, swapFreeKb := 0, 0, 0, 0;
      hasMemAvailable := false;
    }

    /**
     * `read_meminfo`.  `source` is the file's lines, None when it cannot be
     * opened: then the result is -1 and the record is untouched.
     */
    method Read(source: Option<seq<string>>) returns (status: int)
      modifies this
      ensures status == (if source.Some? then 0 else -1)
      ensures Sample() == if source.Some? then MemInfoOf(source.value) else old(Sample())
    {
      if source.None? {
        return -1;
      }
      var lines := source.value;
      memTotalKb, memAvailableKb, memFreeKb := 0, 0, 0;
      buffersKb, cachedKb, swapTotalKb, swapFreeKb := 0, 0, 0, 0;
      hasMemAvailable := false;
      var k := 0;
      while k < |lines|
        invariant 0 <= k <= |lines|
        invariant MemInfoFrom(Sample(), lines[k..]) == MemInfoOf(lines)
      {
        ReadLine(CStr(lines[k]));
        assert lines[k..][1..] == lines[k + 1..];
        k := k + 1;
      }
      status := 0;
    }

    /** One iteration of the loop of `read_meminfo`: the patterns tried in order, the first match stored. */
    method ReadLine(line: string)
      modifies this
      ensures Sample() == ScanMemLine(old(Sample()), line)
    {
      var v0 := ScanLabeled(line, Label(MemTotal));
      if v0.Some? {
        Store(MemTotal, v0.value);
        ScanMemLineMatch(old(Sample()), line, MemTotal, v0.value);
        return;
      }
      var v1 := ScanLabeled(line, Label(MemAvailable));
      if v1.Some? {
        Store(MemAvailable, v1.value);
        ScanMemLineMatch(old(Sample()), line, MemAvailable, v1.value);
        return;
      }
      var v2 := ScanLabeled(line, Label(MemFree));
      if v2.Some? {
        Store(MemFree, v2.value);
        ScanMemLineMatch(old(Sample()), line, MemFree, v2.value);
        return;
      }
      var v3 := ScanLabeled(line, Label(Buffers));
      if v3.Some? {
        Store(Buffers, v3.value);
        ScanMemLineMatch(old(Sample()), line, Buffers, v3.value);
        return;
      }
      var v4 := ScanLabeled(line, Label(Cached));
      if v4.Some? {
        Store(Cached, v4.value);
        ScanMemLineMatch(old(Sample()), line, Cached, v4.value);
        return;
      }
      var v5 := ScanLabeled(line, Label(SwapTotal));
      if v5.Some? {
        Store(SwapTotal, v5.value);
        ScanMemLineMatch(old(Sample()), line, SwapTotal, v5.value);
        return;
      }
      var v6 := ScanLabeled(line, Label(SwapFree));
      if v6.Some? {
        Store(SwapFree, v6.value);
        ScanMemLineMatch(old(Sample()), line, SwapFree, v6.value);
        return;
      }
      forall f ensures ScanLabeled(line, Label(f)).None? {
        match f
        case MemTotal =>
        case MemAvailable =>
        case MemFree =>
        case Buffers =>
        case Cached =>
        case SwapTotal =>
        case SwapFree =>
      }
      ScanMemLineNoMatch(old(Sample()), line);
    }

    /** Storing one parsed counter through `sscanf`'s pointer; a `MemAvailable` value also sets `has_mem_available`. */
    method Store(f: Field, v: nat)
      modifies this
      ensures Sample() == Set(old(Sample()), f, v)
    {
      match f
      case MemTotal => memTotalKb := v;
      case MemAvailable => memAvailableKb := v; hasMemAvailable := true;
      case MemFree => memFreeKb := v;
      case Buffers => buffersKb := v;
      case Cached => cachedKb := v;
      case SwapTotal => swapTotalKb := v;
      case SwapFree => swapFreeKb := v;
    }
  }
}
