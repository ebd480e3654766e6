/**
 * The bit list shared by every filter in the repository: a Python list of the
 * integers 0 and 1 whose length is fixed at construction. This module holds the
 * value-level specification of the two things the filters do with it (write 1 at
 * a list of positions, and test that a list of positions all hold 1) and the
 * facts the filters' contracts rest on.
 */
module BitArray {

  /** One cell of the list: the source stores the integers 0 and 1. */
  type Bit = b: int | 0 <= b <= 1

  /** Every position in `ps` is a valid index into a list of length `n`. */
  predicate InRange(ps: seq<nat>, n: nat)
  {
    forall j :: 0 <= j < |ps| ==> ps[j] < n
  }

  /** A list of `n` zeros, `[0] * n`. */
  function Zeros(n: nat): (r: seq<Bit>)
    ensures |r| == n && forall j :: 0 <= j < n ==> r[j] == 0
  {
    seq(n, _ => 0)
  }

  /** The list after `bits[p] = 1` for each `p` of `ps`, in order. */
  function SetBits(bits: seq<Bit>, ps: seq<nat>): (r: seq<Bit>)
    requires InRange(ps, |bits|)
    ensures |r| == |bits|
    decreases |ps|
  {
    if ps == [] then bits
    else SetBits(bits, ps[..|ps| - 1])[ps[|ps| - 1] := 1]
  }

  /** True when every position in `ps` holds 1: the "may contain" test. */
  predicate AllSet(bits: seq<Bit>, ps: seq<nat>)
    requires InRange(ps, |bits|)
  {
    forall j :: 0 <= j < |ps| ==> bits[ps[j]] == 1
  }

  /** `sum(bits)`. */
  function Sum(bits: seq<Bit>): nat
  {
    if bits == [] then 0 else Sum(bits[..|bits| - 1]) + bits[|bits| - 1]
  }

  /**
   * Writing 1 at `ps` sets exactly the positions in `ps` and leaves every
   * other cell as it was.
   */
  lemma {:induction false} SetBitsAt(bits: seq<Bit>, ps: seq<nat>, j: nat)
    requires InRange(ps, |bits|) && j < |bits|
    ensures SetBits(bits, ps)[j] == if j in ps then 1 else bits[j]
    decreases |ps|
  {
    if ps != [] {
      var init := ps[..|ps| - 1];
      SetBitsAt(bits, init, j);
      assert ps == init + [ps[|ps| - 1]];
    }
  }

  /** No cell ever goes from 1 back to 0, and every cell is at least what it was. */
  lemma {:induction false} SetBitsNeverClears(bits: seq<Bit>, ps: seq<nat>)
    requires InRange(ps, |bits|)
    ensures forall j :: 0 <= j < |bits| ==> bits[j] <= SetBits(bits, ps)[j]
  {
    forall j | 0 <= j < |bits| ensures bits[j] <= SetBits(bits, ps)[j] {
      SetBitsAt(bits, ps, j);
    }
  }

  /** Right after writing 1 at `ps`, the test on `ps` succeeds. */
  lemma {:induction false} SetBitsThenAllSet(bits: seq<Bit>, ps: seq<nat>)
    requires InRange(ps, |bits|)
    ensures AllSet(SetBits(bits, ps), ps)
  {
    forall j | 0 <= j < |ps| ensures SetBits(bits, ps)[ps[j]] == 1 {
      SetBitsAt(bits, ps, ps[j]);
    }
  }

  /** A test that succeeds keeps succeeding after any further writes. */
  lemma {:induction false} AllSetPreserved(bits: seq<Bit>, ps: seq<nat>, qs: seq<nat>)
    requires InRange(ps, |bits|) && InRange(qs, |bits|)
    requires AllSet(bits, ps)
    ensures AllSet(SetBits(bits, qs), ps)
  {
    SetBitsNeverClears(bits, qs);
  }

  /** On a two-position probe list, the test is "both cells hold 1". */
  lemma AllSetPair(bits: seq<Bit>, p: nat, q: nat)
    requires p < |bits| && q < |bits|
    ensures AllSet(bits, [p, q]) <==> bits[p] == 1 && bits[q] == 1
  {
    var ps := [p, q];
    if bits[p] == 1 && bits[q] == 1 {
      forall j | 0 <= j < 2 ensures bits[ps[j]] == 1 {
        if j == 0 { assert ps[j] == p; } else { assert ps[j] == q; }
      }
    } else if bits[p] != 1 {
      assert ps[0] == p;
    } else {
      assert ps[1] == q;
    }
  }

  /** On a two-position probe list, the writes are `bits[p] = 1` then `bits[q] = 1`. */
  lemma {:induction false} SetBitsPair(bits: seq<Bit>, p: nat, q: nat)
    requires p < |bits| && q < |bits|
    ensures SetBits(bits, [p, q]) == bits[p := 1][q := 1]
  {
    var ps := [p, q];
    assert ps[..|ps| - 1] == [p];
    assert [p][..0] == [];
    calc {
      SetBits(bits, ps);
      SetBits(bits, [p])[q := 1];
      SetBits(bits, [])[p := 1][q := 1];
    }
  }

  /** `sum(bits)` is the number of 1s in the list. */
  lemma {:induction false} SumCountsOnes(bits: seq<Bit>)
    ensures Sum(bits) == multiset(bits)[1]
  {
    if bits != [] {
      var init := bits[..|bits| - 1];
      SumCountsOnes(init);
      assert bits == init + [bits[|bits| - 1]];
    }
  }

  /** There are never more 1s than cells. */
  lemma {:induction false} SumBounded(bits: seq<Bit>)
    ensures Sum(bits) <= |bits|
  {
    if bits != [] {
      SumBounded(bits[..|bits| - 1]);
    }
  }

  /** Raising cells one by one never lowers the sum. */
  lemma {:induction false} SumMonotone(bits: seq<Bit>, more: seq<Bit>)
    requires |bits| == |more|
    requires forall j :: 0 <= j < |bits| ==> bits[j] <= more[j]
    ensures Sum(bits) <= Sum(more)
  {
    if bits != [] {
      SumMonotone(bits[..|bits| - 1], more[..|more| - 1]);
    }
  }

  /** Writing 1s never lowers the number of set bits. */
  lemma {:induction false} SetBitsSumMonotone(bits: seq<Bit>, ps: seq<nat>)
    requires InRange(ps, |bits|)
    ensures Sum(bits) <= Sum(SetBits(bits, ps))
  {
    SetBitsNeverClears(bits, ps);
    SumMonotone(bits, SetBits(bits, ps));
  }
}
