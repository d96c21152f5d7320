/**
 * `read_cpuinfo`: the processor model name and the number of logical cores,
 * taken from the lines of `/proc/cpuinfo`.
 */
module CpuInfoReader {
  import opened Outcomes
  import opened CText

  /** Size of the `model_name` buffer, terminating NUL included. */
  const ModelNameCapacity: nat := 128

  /** What the reader extracts: the last model name seen and the count of `processor` lines. */
  datatype CpuDescription = CpuDescription(modelName: string, coreCount: nat)

  predicate IsBlank(c: char) { c == ' ' || c == '\t' }

  /** `s` without its leading spaces and tabs. */
  function SkipBlanks(s: string): (r: string)
    ensures |r| <= |s| && r == s[|s| - |r|..]
    ensures forall i :: 0 <= i < |s| - |r| ==> IsBlank(s[i])
    ensures |r| > 0 ==> !IsBlank(r[0])
  {
    if |s| > 0 && IsBlank(s[0]) then SkipBlanks(s[1..]) else s
  }

  /** The first `n` characters of `s`, or all of them when there are fewer. */
  function Take(s: string, n: nat): (r: string)
    ensures |r| == if |s| < n then |s| else n
    ensures r == s[..|r|]
  {
    if |s| <= n then s else s[..n]
  }

  /**
   * The model name set by a "model name" line whose text after the first ':'
   * is `value`: leading blanks skipped, cut to the 127 characters the buffer
   * holds, one trailing newline or carriage return removed.
   */
  function ModelValue(value: string): (r: string)
    ensures |r| < ModelNameCapacity
    ensures |r| > 0 ==> !IsBlank(r[0])
    ensures |r| <= |SkipBlanks(value)| && r == SkipBlanks(value)[..|r|]
  {
    TrimmedNewline(Take(SkipBlanks(value), ModelNameCapacity - 1))
  }

  /** A line that overwrites the model name: it starts with "model name" and holds a ':'. */
  predicate SetsModel(line: string)
  {
    StartsWith(line, "model name") && ':' in line
  }

  /** The text after the first ':' of a line that sets the model name. */
  function ColonValue(line: string): string
    requires ':' in line
  {
    line[FirstIndex(line, ':').value + 1..]
  }

  /** One iteration of the reading loop, on the C string `fgets` delivered. */
  function ScanCpuInfoLine(d: CpuDescription, line: string): (r: CpuDescription)
    ensures r.coreCount == d.coreCount + (if StartsWith(line, "processor") then 1 else 0)
    ensures r.modelName == if SetsModel(line) then ModelValue(ColonValue(line)) else d.modelName
  {
    assert StartsWith(line, "model name") ==> line[0] == 'm';
    assert StartsWith(line, "processor") ==> line[0] == 'p';
    if StartsWith(line, "model name") then
      if ':' in line then d.(modelName := ModelValue(ColonValue(line))) else d
    else if StartsWith(line, "processor") then
      d.(coreCount := d.coreCount + 1)
    else
      d
  }

  /** The description after reading `lines`, starting from `d`. */
  function CpuInfoFrom(d: CpuDescription, lines: seq<string>): CpuDescription
    decreases |lines|
  {
    if |lines| == 0 then d else CpuInfoFrom(ScanCpuInfoLine(d, CStr(lines[0])), lines[1..])
  }

  /** The description `read_cpuinfo` produces from the lines of the file. */
  function CpuInfoOf(lines: seq<string>): (r: CpuDescription)
    ensures r.coreCount == ProcessorLines(lines)
    ensures (forall i :: 0 <= i < |lines| ==> !SetsModel(CStr(lines[i]))) ==> r.modelName == ""
  {
    CoreCountIsProcessorLines(CpuDescription("", 0), lines);
    if forall i :: 0 <= i < |lines| ==> !SetsModel(CStr(lines[i])) then
      ModelNameUntouched(CpuDescription("", 0), lines);
      CpuInfoFrom(CpuDescription("", 0), lines)
    else
      CpuInfoFrom(CpuDescription("", 0), lines)
  }

  /** The number of lines whose C string starts with "processor". */
  function ProcessorLines(lines: seq<string>): nat
  {
    if |lines| == 0 then 0
    else (if StartsWith(CStr(lines[0]), "processor") then 1 else 0) + ProcessorLines(lines[1..])
  }

  /** The core count is the number of `processor` lines, whatever else the file holds. */
  lemma {:induction false} CoreCountIsProcessorLines(d: CpuDescription, lines: seq<string>)
    ensures CpuInfoFrom(d, lines).coreCount == d.coreCount + ProcessorLines(lines)
    decreases |lines|
  {
    if |lines| > 0 {
      var line := CStr(lines[0]);
      assert StartsWith(line, "model name") ==> line[0] == 'm';
      assert StartsWith(line, "processor") ==> line[0] == 'p';
      CoreCountIsProcessorLines(ScanCpuInfoLine(d, line), lines[1..]);
    }
  }

  /** Without a line that sets it, the model name is left as it was. */
  lemma {:induction false} ModelNameUntouched(d: CpuDescription, lines: seq<string>)
    requires forall i :: 0 <= i < |lines| ==> !SetsModel(CStr(lines[i]))
    ensures CpuInfoFrom(d, lines).modelName == d.modelName
    decreases |lines|
  {
    if |lines| > 0 {
      ModelNameUntouched(ScanCpuInfoLine(d, CStr(lines[0])), lines[1..]);
    }
  }

  /** Every "model name" line overwrites the previous one, so the last such line wins. */
  lemma {:induction false} LastModelNameWins(d: CpuDescription, lines: seq<string>, i: nat)
    requires i < |lines| && SetsModel(CStr(lines[i]))
    requires forall j :: i < j < |lines| ==> !SetsModel(CStr(lines[j]))
    ensures CpuInfoFrom(d, lines).modelName == ModelValue(ColonValue(CStr(lines[i])))
    decreases |lines|
  {
    var d' := ScanCpuInfoLine(d, CStr(lines[0]));
    if i == 0 {
      ModelNameUntouched(d', lines[1..]);
    } else {
      LastModelNameWins(d', lines[1..], i - 1);
    }
  }

  /** A "model name" line with its first ':' at `colon` and its value starting at `p`. */
  lemma ModelLine(d: CpuDescription, line: string, colon: nat, p: nat)
    requires StartsWith(line, "model name") && FirstIndex(line, ':') == Some(colon)
    requires colon + 1 <= p <= |line| && line[p..] == SkipBlanks(line[colon + 1..])
    ensures ScanCpuInfoLine(d, line) == CpuDescription(TrimmedNewline(Take(line[p..], ModelNameCapacity - 1)), d.coreCount)
  {
  }

  /** The `CpuInfo` record the reader fills in place. */
  class CpuInfo {
    var modelName: array<char>
    var coreCount: nat

    ghost predicate Valid()
      reads this, modelName
    {
      modelName.Length == ModelNameCapacity && NUL in modelName[..]
    }

    /** The record's contents as a value. */
    function Description(): CpuDescription
      reads this, modelName
      requires Valid()
    {
      CpuDescription(CStr(modelName[..]), coreCount)
    }

    constructor ()
      ensures Valid() && fresh(modelName)
      ensures Description() == CpuDescription("", 0)
    {
      modelName := new char[ModelNameCapacity](_ => NUL);
      coreCount := 0;
      new;
      assert modelName[..][0] == NUL;
      CStrAt(modelName[..], 0);
    }

    /**
     * `read_cpuinfo`.  `source` is the file's lines, None when it cannot be
     * opened: then the result is -1 and the record is untouched.
     */
    method Read(source: Option<seq<string>>) returns (status: int)
      requires Valid()
      modifies this, modelName
      ensures Valid() && modelName == old(modelName)
      ensures status == (if source.Some? then 0 else -1)
      ensures source.Some? ==> Description() == CpuInfoOf(source.value)
      ensures source.None? ==> modelName[..] == old(modelName[..]) && coreCount == old(coreCount)
    {
      if source.None? {
        return -1;
      }
      var lines := source.value;
      modelName[0] := NUL;
      coreCount := 0;
      CStrAt(modelName[..], 0);
      var k := 0;
      while k < |lines|
        invariant 0 <= k <= |lines|
        invariant Valid() && modelName == old(modelName)
        invariant CpuInfoFrom(Description(), lines[k..]) == CpuInfoOf(lines)
      {
        ReadLine(CStr(lines[k]));
        assert lines[k..][1..] == lines[k + 1..];
        k := k + 1;
      }
      status := 0;
    }

    /** One iteration of the loop of `read_cpuinfo`, on the C string of one line. */
    method ReadLine(line: string)
      requires Valid() && NUL !in line
      modifies this, modelName
      ensures Valid() && modelName == old(modelName)
      ensures Description() == ScanCpuInfoLine(old(Description()), line)
    {
      if StartsWith(line, "model name") {
        var colon := FirstIndex(line, ':');
        if colon.Some? {
          var p := SkipBlanksFrom(line, colon.value + 1);
          SetModelName(line[p..]);
          ModelLine(old(Description()), line, colon.value, p);
        }
      } else if StartsWith(line, "processor") {
        coreCount := coreCount + 1;
      }
    }

    /** The `strncpy` and `trim_newline` of a "model name" line, from its first non-blank after ':'. */
    method SetModelName(value: string)
      requires Valid() && NUL !in value
      modifies modelName
      ensures Valid()
      ensures CStr(modelName[..]) == TrimmedNewline(Take(value, ModelNameCapacity - 1))
    {
      CopyTruncated(modelName, value);
      TrimNewline(modelName);
    }
  }

  /** Advances `value` past spaces and tabs: the position where `SkipBlanks(line[start..])` begins. */
  method SkipBlanksFrom(line: string, start: nat) returns (p: nat)
    requires start <= |line|
    ensures start <= p <= |line|
    ensures line[p..] == SkipBlanks(line[start..])
  {
    p := start;
    while p < |line| && IsBlank(line[p])
      invariant start <= p <= |line|
      invariant SkipBlanks(line[p..]) == SkipBlanks(line[start..])
    {
      assert line[p..][1..] == line[p + 1..];
      p := p + 1;
    }
  }

  /**
   * `strncpy(dst, src, 127)` followed by `dst[127] = '\0'`: the buffer then
   * holds the first 127 characters of `src`.
   */
  method CopyTruncated(dst: array<char>, src: string)
    requires dst.Length == ModelNameCapacity && NUL !in src
    modifies dst
    ensures NUL in dst[..]
    ensures CStr(dst[..]) == Take(src, ModelNameCapacity - 1)
  {
    var n := ModelNameCapacity - 1;
    var i := 0;
    while i < n
      invariant 0 <= i <= n
      invariant forall j :: 0 <= j < i ==> dst[j] == if j < |src| then src[j] else NUL
    {
      dst[i] := if i < |src| then src[i] else NUL;
      i := i + 1;
    }
    dst[n] := NUL;
    var t := Take(src, n);
    assert dst[..|t|] == t;
    CStrAt(dst[..], |t|);
  }
}
