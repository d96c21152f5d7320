/**
 * Character-level helpers of the monitor: the C-string view of a char buffer,
 * `trim_newline`, and the pieces of `sscanf` the readers rely on (prefix
 * literals, whitespace skipping, `%llu` over decimal digits).
 */
module CText {
  import opened Outcomes

  const NUL: char := '\0'

  predicate IsDigit(c: char) { '0' <= c <= '9' }

  /** The characters `isspace` accepts in the C locale: space, \t, \n, \v, \f, \r. */
  predicate IsSpace(c: char) { c == ' ' || '\t' <= c <= '\r' }

  /** `strncmp(s, p, |p|) == 0` for a literal `p` without NUL characters. */
  predicate StartsWith(s: string, p: string) { |p| <= |s| && s[..|p|] == p }

  /** The C string held by a buffer: everything before the first NUL. */
  function CStr(s: seq<char>): (r: string)
    ensures |r| <= |s| && r == s[..|r|]
    ensures NUL !in r
    ensures |r| < |s| ==> s[|r|] == NUL
  {
    if |s| == 0 || s[0] == NUL then [] else [s[0]] + CStr(s[1..])
  }

  /** A buffer whose first NUL is at `n` holds the C string `s[..n]`. */
  lemma CStrAt(s: seq<char>, n: nat)
    requires n < |s| && s[n] == NUL && NUL !in s[..n]
    ensures CStr(s) == s[..n]
  {
  }

  /** Text without NUL characters is its own C string. */
  lemma CStrOfText(s: string)
    requires NUL !in s
    ensures CStr(s) == s
  {
    if |s| > 0 {
      assert s[1..] == s[1..];
      CStrOfText(s[1..]);
    }
  }

  /** `strchr`: the position of the first `c` in `s`, if any. */
  function FirstIndex(s: string, c: char): (r: Option<nat>)
    ensures r.None? <==> c !in s
    ensures r.Some? ==> r.value < |s| && s[r.value] == c && c !in s[..r.value]
  {
    if |s| == 0 then None
    else if s[0] == c then Some(0)
    else match FirstIndex(s[1..], c)
      case None => None
      case Some(i) => assert s[..i + 1] == [s[0]] + s[1..][..i]; Some(i + 1)
  }

  /** `strlen`: the index of the first NUL of a terminated buffer. */
  method StrLen(buf: array<char>) returns (len: nat)
    requires NUL in buf[..]
    ensures len < buf.Length && buf[len] == NUL
    ensures buf[..len] == CStr(buf[..])
  {
    len := 0;
    while buf[len] != NUL
      invariant len < buf.Length
      invariant NUL in buf[len..]
      invariant NUL !in buf[..len]
      decreases buf.Length - len
    {
      assert buf[len..] == [buf[len]] + buf[len + 1..];
      assert buf[..len + 1] == buf[..len] + [buf[len]];
      len := len + 1;
    }
    CStrAt(buf[..], len);
  }

  /** The string `trim_newline` leaves: one trailing '\n' or '\r' removed, if there is one. */
  function TrimmedNewline(s: string): (r: string)
    ensures r == s || (|s| > 0 && r == s[..|s| - 1])
    ensures r != s <==> |s| > 0 && (s[|s| - 1] == '\n' || s[|s| - 1] == '\r')
  {
    if |s| > 0 && (s[|s| - 1] == '\n' || s[|s| - 1] == '\r') then s[..|s| - 1] else s
  }

  /** `trim_newline`: overwrite a trailing '\n' or '\r' of the C string in `buf` with NUL. */
  method TrimNewline(buf: array<char>)
    requires NUL in buf[..]
    modifies buf
    ensures NUL in buf[..]
    ensures CStr(buf[..]) == TrimmedNewline(CStr(old(buf[..])))
    ensures forall j :: 0 <= j < buf.Length && buf[j] != old(buf[j]) ==> buf[j] == NUL
  {
    var len := StrLen(buf);
    ghost var s := CStr(buf[..]);
    if len > 0 && (buf[len - 1] == '\n' || buf[len - 1] == '\r') {
      buf[len - 1] := NUL;
      assert buf[..len - 1] == s[..len - 1];
      CStrAt(buf[..], len - 1);
    }
  }

  /** The whitespace directive of `sscanf`: the first position at or after `i` that is not whitespace. */
  function SkipSpace(s: string, i: nat): (j: nat)
    requires i <= |s|
    ensures i <= j <= |s|
    decreases |s| - i
  {
    if i < |s| && IsSpace(s[i]) then SkipSpace(s, i + 1) else i
  }

  /** Everything skipped is whitespace, and the scan stops at the line end or at a character that is not. */
  lemma {:induction false} SkipSpaceStops(s: string, i: nat)
    requires i <= |s|
    ensures forall k :: i <= k < SkipSpace(s, i) ==> IsSpace(s[k])
    ensures SkipSpace(s, i) < |s| ==> !IsSpace(s[SkipSpace(s, i)])
    decreases |s| - i
  {
    if i < |s| && IsSpace(s[i]) {
      SkipSpaceStops(s, i + 1);
    }
  }

  /** The end of the run of decimal digits that starts at `i`. */
  function DigitsEnd(s: string, i: nat): (j: nat)
    requires i <= |s|
    ensures i <= j <= |s|
    decreases |s| - i
  {
    if i < |s| && IsDigit(s[i]) then DigitsEnd(s, i + 1) else i
  }

  /** The run holds only digits, and ends at the line end or at a character that is not one. */
  lemma {:induction false} DigitsEndStops(s: string, i: nat)
    requires i <= |s|
    ensures forall k :: i <= k < DigitsEnd(s, i) ==> IsDigit(s[k])
    ensures DigitsEnd(s, i) < |s| ==> !IsDigit(s[DigitsEnd(s, i)])
    decreases |s| - i
  {
    if i < |s| && IsDigit(s[i]) {
      DigitsEndStops(s, i + 1);
    }
  }

  predicate AllDigits(ds: string) { forall i :: 0 <= i < |ds| ==> IsDigit(ds[i]) }

  function DigitValue(c: char): (d: nat)
    requires IsDigit(c)
    ensures d < 10
  {
    c as int - '0' as int
  }

  function DigitChar(d: nat): (c: char)
    requires d < 10
    ensures IsDigit(c) && DigitValue(c) == d
  {
    ('0' as int + d) as char
  }

  /** The number a string of decimal digits denotes, most significant digit first. */
  function DecimalValue(ds: string): nat
    requires AllDigits(ds)
  {
    if |ds| == 0 then 0 else 10 * DecimalValue(ds[..|ds| - 1]) + DigitValue(ds[|ds| - 1])
  }

  /** The shortest decimal spelling of `n`, as `printf("%llu")` writes it. */
  function Decimal(n: nat): (ds: string)
    ensures |ds| > 0 && AllDigits(ds)
  {
    if n < 10 then [DigitChar(n)] else Decimal(n / 10) + [DigitChar(n % 10)]
  }

  lemma {:induction false} DecimalRoundTrip(n: nat)
    ensures DecimalValue(Decimal(n)) == n
  {
    if n >= 10 {
      DecimalRoundTrip(n / 10);
      var ds := Decimal(n);
      assert ds[..|ds| - 1] == Decimal(n / 10);
    }
  }

  /**
   * One `%llu` conversion at position `i`: skip whitespace, then read the
   * longest run of digits.  None when no digit follows the whitespace, which
   * is where `sscanf` stops converting; otherwise the value and the position
   * after its last digit.
   */
  function ScanUnsigned(s: string, i: nat): (r: Option<(nat, nat)>)
    requires i <= |s|
    ensures r.Some? ==> i < r.value.1 <= |s|
  {
    var start := SkipSpace(s, i);
    var end := DigitsEnd(s, start);
    if start == end then None
    else
      assert AllDigits(s[start..end]) by {
        DigitsEndStops(s, start);
        forall k | 0 <= k < end - start ensures IsDigit(s[start..end][k]) {
          assert s[start..end][k] == s[start + k];
        }
      }
      Some((DecimalValue(s[start..end]), end))
  }

  /** A conversion happens exactly when a digit follows the whitespace. */
  lemma ScanUnsignedSome(s: string, i: nat)
    requires i <= |s|
    ensures ScanUnsigned(s, i).Some? <==> SkipSpace(s, i) < |s| && IsDigit(s[SkipSpace(s, i)])
  {
  }

  /** Regrouping a concatenation: instantiated where asserting the equality directly is too costly. */
  lemma ConcatAssoc<T>(a: seq<T>, b: seq<T>, c: seq<T>)
    ensures a + (b + c) == (a + b) + c
  {
  }

  /** A run of whitespace from `a` to `b`, followed by a character that is not whitespace, is skipped whole. */
  lemma {:induction false} SkipSpaceOfRun(t: string, a: nat, b: nat)
    requires a <= b < |t|
    requires forall k :: a <= k < b ==> IsSpace(t[k])
    requires !IsSpace(t[b])
    ensures SkipSpace(t, a) == b
    decreases b - a
  {
    if a < b {
      SkipSpaceOfRun(t, a + 1, b);
    }
  }

  /** A run of digits from `a` to `b`, followed by the end or a character that is not a digit, is read whole. */
  lemma {:induction false} DigitsEndOfRun(t: string, a: nat, b: nat)
    requires a <= b <= |t|
    requires forall k :: a <= k < b ==> IsDigit(t[k])
    requires b == |t| || !IsDigit(t[b])
    ensures DigitsEnd(t, a) == b
    decreases b - a
  {
    if a < b {
      DigitsEndOfRun(t, a + 1, b);
    }
  }

  /** Where the conversion stops once the whitespace and the digit run are known. */
  lemma ScanUnsignedAt(t: string, i: nat, start: nat, end: nat, n: nat)
    requires i <= start < end <= |t|
    requires SkipSpace(t, i) == start && DigitsEnd(t, start) == end
    requires AllDigits(t[start..end])
    requires DecimalValue(t[start..end]) == n
    ensures ScanUnsigned(t, i) == Some((n, end))
  {
  }

  /**
   * `%llu` reads back what `%llu` printed: whitespace from `i` to `start`,
   * then the digits of `n`, then the end of the line or something that is
   * not a digit.
   */
  lemma ScanUnsignedPrinted(t: string, i: nat, start: nat, n: nat)
    requires i <= start && start + |Decimal(n)| <= |t|
    requires forall k :: i <= k < start ==> IsSpace(t[k])
    requires t[start..start + |Decimal(n)|] == Decimal(n)
    requires start + |Decimal(n)| == |t| || !IsDigit(t[start + |Decimal(n)|])
    ensures ScanUnsigned(t, i) == Some((n, start + |Decimal(n)|))
  {
    var ds := Decimal(n);
    var end := start + |ds|;
    assert forall k :: start <= k < end ==> IsDigit(t[k]) by {
      forall k | start <= k < end ensures IsDigit(t[k]) {
        assert t[k] == t[start..end][k - start];
      }
    }
    assert t[start] == ds[0];
    SkipSpaceOfRun(t, i, start);
    DigitsEndOfRun(t, start, end);
    DecimalRoundTrip(n);
    ScanUnsignedAt(t, i, start, end, n);
  }
}
