/** `suma` of the recursion lecture: the sum 1 + 2 + ... + i, computed recursively. */
module RecursiveSum {

  /** `suma(i)`: 1 when `i` is 1, otherwise `i` plus the sum up to `i - 1`.  Callers must pass `i >= 1`. */
  function Suma(i: nat): (r: nat)
    requires i >= 1
    ensures r >= i
  {
    if i == 1 then 1 else i + Suma(i - 1)
  }

  /** The numbers 1 through `n`, in order: the terms the sum adds up. */
  function UpTo(n: nat): (s: seq<nat>)
    ensures |s| == n
    ensures forall k :: 0 <= k < n ==> s[k] == k + 1
  {
    if n == 0 then [] else UpTo(n - 1) + [n]
  }

  /** The plain sum of a sequence, from the back. */
  function Total(s: seq<nat>): nat
  {
    if |s| == 0 then 0 else Total(s[..|s| - 1]) + s[|s| - 1]
  }

  /** `suma(i)` adds exactly the numbers 1 through `i`. */
  lemma {:induction false} SumaIsTotal(i: nat)
    requires i >= 1
    ensures Suma(i) == Total(UpTo(i))
  {
    var s := UpTo(i);
    assert s[..|s| - 1] == UpTo(i - 1);
    if i > 1 {
      SumaIsTotal(i - 1);
    }
  }

  /** Gauss's closed form: twice the sum is `i * (i + 1)`. */
  lemma {:induction false} SumaClosedForm(i: nat)
    requires i >= 1
    ensures 2 * Suma(i) == i * (i + 1)
  {
    if i > 1 {
      SumaClosedForm(i - 1);
    }
  }

  /** The example in the documentation, and the program's own call with 1000, whose result fits in an `unsigned long`. */
  lemma SumaExamples()
    ensures Suma(1) == 1
    ensures Suma(5) == 15
    ensures Suma(1000) == 500500 < 0x1_0000_0000_0000_0000
  {
    SumaClosedForm(5);
    SumaClosedForm(1000);
  }
}
