/**
 * The hash primitives the filters call, and the decimal text `str(i)` that
 * bloom_filter.py appends to an item before hashing it.
 *
 * md5 and Python's built-in `hash()` are foreign code: they enter the model as
 * function values handed to each filter at construction, so every fact proved
 * about a filter holds whatever functions they are.
 */
module Digest {

  /** `int(hashlib.md5(s.encode()).hexdigest(), 16)`: a non-negative integer. */
  type Md5 = string -> nat

  /** Python's built-in `hash(s)` on a string: any integer, negative included. */
  type BuiltinHash = string -> int

  /** The decimal digit character for `d`. */
  function Digit(d: nat): (c: char)
    requires d < 10
    ensures '0' <= c <= '9' && (c as int) - ('0' as int) == d
  {
    (('0' as int) + d) as char
  }

  predicate IsDigits(s: string)
  {
    forall j :: 0 <= j < |s| ==> '0' <= s[j] <= '9'
  }

  /** `str(n)` for a non-negative integer: its decimal digits, most significant first, with no leading zero. */
  function DecimalString(n: nat): (s: string)
    ensures |s| >= 1 && IsDigits(s)
    ensures n > 0 ==> s[0] != '0'
    ensures |s| == 1 || s[0] != '0'
  {
    if n < 10 then [Digit(n)] else DecimalString(n / 10) + [Digit(n % 10)]
  }

  /** `int(s)` for a string of decimal digits. */
  function DecimalValue(s: string): nat
    requires IsDigits(s)
  {
    if s == [] then 0
    else DecimalValue(s[..|s| - 1]) * 10 + ((s[|s| - 1] as int) - ('0' as int))
  }

  /** Reading back the decimal text of `n` gives `n`. */
  lemma {:induction false} DecimalRoundTrip(n: nat)
    ensures DecimalValue(DecimalString(n)) == n
  {
    if n >= 10 {
      var s := DecimalString(n);
      assert s[..|s| - 1] == DecimalString(n / 10);
      DecimalRoundTrip(n / 10);
    }
  }

  /**
   * Distinct probe indices give distinct hash inputs for the same item: the
   * strings `item + str(i)` and `item + str(j)` differ whenever `i != j`.
   */
  lemma ProbeInputsDistinct(item: string, i: nat, j: nat)
    requires i != j
    ensures item + DecimalString(i) != item + DecimalString(j)
  {
    if item + DecimalString(i) == item + DecimalString(j) {
      assert DecimalString(i) == (item + DecimalString(i))[|item|..];
      DecimalRoundTrip(i);
      DecimalRoundTrip(j);
    }
  }
}
