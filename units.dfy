/**
 * How the monitor shows quantities: `format_kib`, which picks the binary unit
 * a kibibyte count is shown in, and the `part * 100.0 / whole` percentages.
 */
module Units {

  const Suffixes: seq<string> := ["KiB", "MiB", "GiB", "TiB"]

  /** 1024 to the power `k`, for the units that exist. */
  function Scale(k: nat): (r: nat)
    requires k < |Suffixes|
    ensures r >= 1
  {
    if k == 0 then 1 else 1024 * Scale(k - 1)
  }

  /** How many of the thresholds 1024, 1024^2 and 1024^3 the count reaches. */
  function UnitIndex(kib: nat): (i: nat)
    ensures i < |Suffixes|
  {
    (if kib >= 1024 then 1 else 0) +
    (if kib >= 1024 * 1024 then 1 else 0) +
    (if kib >= 1024 * 1024 * 1024 then 1 else 0)
  }

  /** A formatted count: the scaled value and the unit it is printed with. */
  datatype Quantity = Quantity(value: real, suffix: string)

  /**
   * The quantity `format_kib` prints for `kib`: the largest unit the count
   * reaches (up to TiB), and the count expressed in that unit.
   */
  function Shown(kib: nat): (q: Quantity)
    ensures q.suffix == Suffixes[UnitIndex(kib)]
    ensures q.value * Scale(UnitIndex(kib)) as real == kib as real
    ensures UnitIndex(kib) < |Suffixes| - 1 ==> q.value < 1024.0
    ensures UnitIndex(kib) > 0 ==> q.value >= 1.0
  {
    var k := UnitIndex(kib);
    ScaledBounds(kib, k);
    Quantity(kib as real / Scale(k) as real, Suffixes[k])
  }

  /** The count scaled to its unit lies in [1, 1024), below the top unit and above the bottom one. */
  lemma ScaledBounds(kib: nat, k: nat)
    requires k == UnitIndex(kib)
    ensures (kib as real / Scale(k) as real) * Scale(k) as real == kib as real
    ensures k < |Suffixes| - 1 ==> kib as real / Scale(k) as real < 1024.0
    ensures k > 0 ==> kib as real / Scale(k) as real >= 1.0
  {
    var n := kib as real;
    var d := Scale(k) as real;
    assert Scale(1) == 1024 && Scale(2) == 1024 * 1024 && Scale(3) == 1024 * 1024 * 1024;
    if k < |Suffixes| - 1 {
      assert n < 1024.0 * d;
      assert n / d < (1024.0 * d) / d;
    }
    if k > 0 {
      assert n >= d;
      assert n / d >= d / d;
    }
  }

  /**
   * `format_kib` without the `%.2f` rendering: the scaled value and the unit
   * suffix it is printed with.  Dividing by 1024 is exact in binary floating
   * point and the thresholds are powers of two, so deciding the unit on exact
   * reals picks the same unit as the source's doubles.
   */
  method FormatKib(kib: nat) returns (value: real, suffix: string)
    ensures suffix == Suffixes[UnitIndex(kib)]
    ensures value == kib as real / Scale(UnitIndex(kib)) as real
    ensures UnitIndex(kib) < |Suffixes| - 1 ==> value < 1024.0
    ensures UnitIndex(kib) > 0 ==> value >= 1.0
    ensures Quantity(value, suffix) == Shown(kib)
  {
    value := kib as real;
    var suffixIndex := 0;
    while value >= 1024.0 && suffixIndex < |Suffixes| - 1
      invariant suffixIndex < |Suffixes|
      invariant suffixIndex == 0 ==> value == kib as real
      invariant suffixIndex == 1 ==> value == kib as real / 1024.0 && kib >= 1024
      invariant suffixIndex == 2 ==> value == kib as real / 1048576.0 && kib >= 1048576
      invariant suffixIndex == 3 ==> value == kib as real / 1073741824.0 && kib >= 1073741824
    {
      value := value / 1024.0;
      suffixIndex := suffixIndex + 1;
    }
    suffix := Suffixes[suffixIndex];
    assert suffixIndex == UnitIndex(kib);
  }

  /** A larger count is never shown in a smaller unit. */
  lemma UnitIndexMonotone(a: nat, b: nat)
    requires a <= b
    ensures UnitIndex(a) <= UnitIndex(b)
  {
  }

  /**
   * The unit boundaries the thresholds give: counts are in KiB, so 1024 KiB
   * is shown as MiB, 1024^2 KiB as GiB, and 1024^3 KiB and beyond as TiB.
   */
  lemma UnitIndexExamples()
    ensures UnitIndex(0) == 0 && UnitIndex(1023) == 0 && Suffixes[0] == "KiB"
    ensures UnitIndex(1024) == 1 && UnitIndex(1024 * 1024 - 1) == 1 && Suffixes[1] == "MiB"
    ensures UnitIndex(1024 * 1024) == 2 && Suffixes[2] == "GiB"
    ensures UnitIndex(1024 * 1024 * 1024) == 3 && Suffixes[3] == "TiB"
    ensures UnitIndex(1024 * 1024 * 1024 * 1024 * 1024) == 3
  {
  }

  /**
   * `part * 100.0 / whole` on exact reals: the share of `whole` that `part`
   * is, in percent.
   */
  function Percent(part: nat, whole: nat): (r: real)
    requires whole > 0
    ensures r * whole as real == part as real * 100.0
    ensures 0.0 <= r
    ensures part <= whole ==> r <= 100.0
    ensures part == whole ==> r == 100.0
    ensures part == 0 ==> r == 0.0
  {
    var p := part as real * 100.0;
    var w := whole as real;
    assert part <= whole ==> p / w <= (w * 100.0) / w;
    p / w
  }
}
