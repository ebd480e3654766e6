/**
 * The sized Bloom filter of bloom_filter.py: a bit list of `size` cells, an
 * add counter, and `hashCount` probes per item, the i-th of which is the md5 of
 * `str(item) + str(i)` reduced mod `size`.
 *
 * `size` and `hashCount` are taken as given; the floating-point formulas that
 * derive them from a capacity and an error rate are not part of this model.
 */
module KHashBloom {
  import opened BitArray
  import opened Digest

  /** The i-th probe position of `item`. */
  function Probe(md5: Md5, size: nat, item: string, i: nat): (p: nat)
    requires size > 0
    ensures p < size
  {
    md5(item + DecimalString(i)) % size
  }

  /** The first `n` probe positions of `item`, in probe order. */
  function Probes(md5: Md5, size: nat, item: string, n: nat): (ps: seq<nat>)
    requires n == 0 || size > 0
    ensures |ps| == n && InRange(ps, size)
    ensures forall i :: 0 <= i < n ==> ps[i] == Probe(md5, size, item, i)
  {
    if n == 0 then [] else Probes(md5, size, item, n - 1) + [Probe(md5, size, item, n - 1)]
  }

  /** The bit list after adding each of `items` in turn to the list `bits`. */
  function AddAll(md5: Md5, size: nat, hashCount: nat, bits: seq<Bit>, items: seq<string>): (r: seq<Bit>)
    requires hashCount == 0 || size > 0
    requires |bits| == size
    ensures |r| == size
    decreases |items|
  {
    if items == [] then bits
    else
      var before := AddAll(md5, size, hashCount, bits, items[..|items| - 1]);
      SetBits(before, Probes(md5, size, items[|items| - 1], hashCount))
  }

  /** No false negatives: after any sequence of adds, every added item passes the test. */
  lemma {:induction false} NoFalseNegatives(md5: Md5, size: nat, hashCount: nat, bits: seq<Bit>, items: seq<string>, x: string)
    requires hashCount == 0 || size > 0
    requires |bits| == size
    requires x in items
    ensures AllSet(AddAll(md5, size, hashCount, bits, items), Probes(md5, size, x, hashCount))
    decreases |items|
  {
    var init := items[..|items| - 1];
    var last := items[|items| - 1];
    var before := AddAll(md5, size, hashCount, bits, init);
    if x == last {
      SetBitsThenAllSet(before, Probes(md5, size, last, hashCount));
    } else {
      assert items == init + [last];
      NoFalseNegatives(md5, size, hashCount, bits, init, x);
      AllSetPreserved(before, Probes(md5, size, x, hashCount), Probes(md5, size, last, hashCount));
    }
  }

  /** The statistics the filter reports, without the floating-point ratio and rate. */
  datatype Stats = Stats(size: nat, hashCount: nat, addedItems: nat, bitsSet: nat)

  class BloomFilter {
    const size: nat
    const hashCount: nat
    const md5: Md5
    const bitArray: array<Bit>
    var count: nat

    /** Every item ever passed to `Add`, duplicates included. */
    ghost var added: seq<string>

    /** The probes can be reduced mod `size`: either there are none, or `size` is positive. */
    predicate CanProbe()
    {
      hashCount == 0 || size > 0
    }

    /** `item` passes the test on the current bits. */
    ghost predicate MayContain(item: string)
      reads bitArray
      requires bitArray.Length == size && CanProbe()
    {
      AllSet(bitArray[..], Probes(md5, size, item, hashCount))
    }

    /**
     * The object invariant: the list keeps its length, `count` is the number of
     * `Add` calls, and the bits are exactly those of a fresh list after adding
     * the items of `added` in turn, so they depend on nothing else.
     */
    ghost predicate Valid()
      reads this, bitArray
    {
      && bitArray.Length == size
      && CanProbe()
      && count == |added|
      && bitArray[..] == AddAll(md5, size, hashCount, Zeros(size), added)
    }

    /** No false negatives: every item ever added passes the test. */
    lemma AddedPass(item: string)
      requires Valid() && item in added
      ensures MayContain(item)
    {
      NoFalseNegatives(md5, size, hashCount, Zeros(size), added, item);
    }

    /** With a hash count of 0 the test is vacuous: every item "may be present". */
    lemma NoProbesAcceptsAll(item: string)
      requires Valid() && hashCount == 0
      ensures MayContain(item)
    {
    }

    constructor (size: nat, hashCount: nat, md5: Md5)
      requires hashCount == 0 || size > 0
      ensures Valid() && fresh(bitArray)
      ensures this.size == size && this.hashCount == hashCount && this.md5 == md5
      ensures bitArray[..] == Zeros(size) && count == 0 && added == []
    {
      this.size := size;
      this.hashCount := hashCount;
      this.md5 := md5;
      bitArray := new Bit[size](_ => 0);
      count := 0;
      added := [];
    }

    /** `_hash`: the `hashCount` probe positions of `item`, each below `size`. */
    method Hash(item: string) returns (hashes: seq<nat>)
      requires CanProbe()
      ensures hashes == Probes(md5, size, item, hashCount)
    {
      hashes := [];
      var i := 0;
      while i < hashCount
        invariant i <= hashCount
        invariant hashes == Probes(md5, size, item, i)
      {
        var hashValue := md5(item + DecimalString(i)) % size;
        hashes := hashes + [hashValue];
        i := i + 1;
      }
    }

    /**
     * `add`: writes 1 at exactly the probe positions of `item`, keeps every
     * other bit, and counts the call, whether or not `item` was added before.
     */
    method Add(item: string)
      requires Valid()
      modifies this`count, this`added, bitArray
      ensures Valid()
      ensures bitArray[..] == SetBits(old(bitArray[..]), Probes(md5, size, item, hashCount))
      ensures count == old(count) + 1 && added == old(added) + [item]
      ensures MayContain(item)
      ensures forall y :: old(MayContain(y)) ==> MayContain(y)
      ensures Sum(old(bitArray[..])) <= Sum(bitArray[..])
    {
      ghost var before := bitArray[..];
      var hashes := Hash(item);
      SetPositions(hashes);
      count := count + 1;
      added := added + [item];

      assert (old(added) + [item])[..|old(added)|] == old(added);
      SetBitsThenAllSet(before, hashes);
      forall y | AllSet(before, Probes(md5, size, y, hashCount))
        ensures AllSet(bitArray[..], Probes(md5, size, y, hashCount))
      {
        AllSetPreserved(before, Probes(md5, size, y, hashCount), hashes);
      }
      SetBitsSumMonotone(before, hashes);
    }

    /** The loop of `add`: `bit_array[h] = 1` for each probe position `h`, in order. */
    method SetPositions(hashes: seq<nat>)
      requires bitArray.Length == size && InRange(hashes, size)
      modifies bitArray
      ensures bitArray[..] == SetBits(old(bitArray[..]), hashes)
    {
      for k := 0 to |hashes|
        invariant bitArray[..] == SetBits(old(bitArray[..]), hashes[..k])
      {
        assert hashes[..k + 1] == hashes[..k] + [hashes[k]];
        bitArray[hashes[k]] := 1;
      }
      assert hashes[..|hashes|] == hashes;
    }

    /**
     * `check`: false exactly when some probe position of `item` holds 0; with
     * no probes it is true. It changes nothing.
     */
    method Check(item: string) returns (r: bool)
      requires Valid()
      ensures r <==> forall j :: 0 <= j < hashCount ==> bitArray[Probe(md5, size, item, j)] == 1
      ensures item in added ==> r
    {
      if item in added {
        AddedPass(item);
      }
      var hashes := Hash(item);
      for k := 0 to |hashes|
        invariant forall j :: 0 <= j < k ==> bitArray[hashes[j]] == 1
      {
        if bitArray[hashes[k]] == 0 {
          return false;
        }
      }
      return true;
    }

    /**
     * `get_stats` without its floating-point entries. The source divides by
     * `size` for the set-bit ratio and the error rate, so a list of length 0
     * raises there: the caller must not ask.
     */
    function GetStats(): (s: Stats)
      reads this, bitArray
      requires Valid() && size > 0
      ensures s.size == size && s.hashCount == hashCount && s.addedItems == count
      ensures s.bitsSet == multiset(bitArray[..])[1] && s.bitsSet <= size
    {
      SumCountsOnes(bitArray[..]);
      SumBounded(bitArray[..]);
      Stats(size, hashCount, count, Sum(bitArray[..]))
    }
  }
}
