/**
 * The minimal filter of simple_bloom_filter.py: a bit list of `size` cells and
 * two fixed probes per item, Python's built-in `hash` and md5, each reduced
 * mod `size`.
 */
module SimpleBloom {
  import opened BitArray
  import opened Digest

  class SimpleBloomFilter {
    const size: nat
    const pyHash: BuiltinHash
    const md5: Md5
    const bitArray: array<Bit>

    /** The list keeps the length it was created with. */
    ghost predicate Valid()
    {
      bitArray.Length == size
    }

    constructor (size: nat, pyHash: BuiltinHash, md5: Md5)
      ensures Valid() && fresh(bitArray)
      ensures this.size == size && this.pyHash == pyHash && this.md5 == md5
      ensures bitArray[..] == Zeros(size)
    {
      this.size := size;
      this.pyHash := pyHash;
      this.md5 := md5;
      bitArray := new Bit[size](_ => 0);
    }

    /** `_hash1`: Python's `%` by a positive size never yields a negative index. */
    function Hash1(item: string): (p: nat)
      requires size > 0
      ensures p < size
    {
      pyHash(item) % size
    }

    /** `_hash2`. */
    function Hash2(item: string): (p: nat)
      requires size > 0
      ensures p < size
    {
      md5(item) % size
    }

    /** The two probe positions of `item`, as a probe list. */
    function Positions(item: string): (ps: seq<nat>)
      requires size > 0
      ensures |ps| == 2 && InRange(ps, size)
    {
      [Hash1(item), Hash2(item)]
    }

    /**
     * `check`: true exactly when both probe bits of `item` hold 1, which is the
     * general "all probes set" test on the two-element probe list.
     */
    function Check(item: string): (r: bool)
      reads bitArray
      requires Valid() && size > 0
      ensures r <==> AllSet(bitArray[..], Positions(item))
    {
      var pos1, pos2 := Hash1(item), Hash2(item);
      AllSetPair(bitArray[..], pos1, pos2);
      bitArray[pos1] == 1 && bitArray[pos2] == 1
    }

    /**
     * `add`: writes 1 at the two probe positions of `item` and nowhere else;
     * afterwards `item` passes `Check`, and whatever passed before still does.
     */
    method Add(item: string)
      requires Valid() && size > 0
      modifies bitArray
      ensures Valid()
      ensures bitArray[..] == SetBits(old(bitArray[..]), Positions(item))
      ensures forall j :: 0 <= j < size ==>
                bitArray[j] == if j == Hash1(item) || j == Hash2(item) then 1 else old(bitArray[j])
      ensures Check(item)
      ensures forall y :: old(Check(y)) ==> Check(y)
    {
      ghost var before := bitArray[..];
      var pos1 := Hash1(item);
      var pos2 := Hash2(item);
      bitArray[pos1] := 1;
      bitArray[pos2] := 1;

      ghost var ps := Positions(item);
      SetBitsPair(before, pos1, pos2);
      forall j | 0 <= j < size
        ensures bitArray[j] == if j == pos1 || j == pos2 then 1 else before[j]
      {
        SetBitsAt(before, ps, j);
      }
      SetBitsThenAllSet(before, ps);
      forall y | AllSet(before, Positions(y)) ensures AllSet(bitArray[..], Positions(y)) {
        AllSetPreserved(before, Positions(y), ps);
      }
    }
  }
}
