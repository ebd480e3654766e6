/**
 * The LSM lookup cascade of lsm_bloom_filter.py: a two-hash Bloom filter, an
 * SSTable (an immutable key -> value mapping whose keys are all registered in
 * its own filter at construction, with a lookup gated by that filter), and a
 * tree of SSTables searched newest first.
 */
module LsmBloom {
  import opened BitArray
  import opened Digest
  import opened Wrappers

  /** The size every SSTable gives its filter (`BloomFilter()` with its default). */
  const DefaultFilterSize: nat := 50

  class BloomFilter {
    const size: nat
    const pyHash: BuiltinHash
    const md5: Md5
    const bitArray: array<Bit>

    /** The list keeps the length it was created with. */
    ghost predicate Valid()
    {
      bitArray.Length == size
    }

    constructor (size: nat, pyHash: BuiltinHash, md5: Md5)
      ensures Valid() && fresh(bitArray)
      ensures this.size == size && this.pyHash == pyHash && this.md5 == md5
      ensures bitArray[..] == Zeros(size)
    {
      this.size := size;
      this.pyHash := pyHash;
      this.md5 := md5;
      bitArray := new Bit[size](_ => 0);
    }

    /** `_hash1`: Python's `%` by a positive size never yields a negative index. */
    function Hash1(key: string): (p: nat)
      requires size > 0
      ensures p < size
    {
      pyHash(key) % size
    }

    /** `_hash2`. */
    function Hash2(key: string): (p: nat)
      requires size > 0
      ensures p < size
    {
      md5(key) % size
    }

    /** The two probe positions of `key`, as a probe list. */
    function Positions(key: string): (ps: seq<nat>)
      requires size > 0
      ensures |ps| == 2 && InRange(ps, size)
    {
      [Hash1(key), Hash2(key)]
    }

    /** `might_contain`: both probe bits of `key` hold 1. */
    function MightContain(key: string): (r: bool)
      reads bitArray
      requires Valid() && size > 0
      ensures r <==> AllSet(bitArray[..], Positions(key))
    {
      var pos1, pos2 := Hash1(key), Hash2(key);
      AllSetPair(bitArray[..], pos1, pos2);
      bitArray[pos1] == 1 && bitArray[pos2] == 1
    }

    /**
     * `add`: writes 1 at the two probe positions of `key` and nowhere else;
     * afterwards `key` passes `MightContain`, and whatever passed before still does.
     */
    method Add(key: string)
      requires Valid() && size > 0
      modifies bitArray
      ensures Valid()
      ensures bitArray[..] == SetBits(old(bitArray[..]), Positions(key))
      ensures forall j :: 0 <= j < size ==>
                bitArray[j] == if j == Hash1(key) || j == Hash2(key) then 1 else old(bitArray[j])
      ensures MightContain(key)
      ensures forall y :: old(MightContain(y)) ==> MightContain(y)
    {
      ghost var before := bitArray[..];
      var pos1 := Hash1(key);
      var pos2 := Hash2(key);
      bitArray[pos1] := 1;
      bitArray[pos2] := 1;

      ghost var ps := Positions(key);
      SetBitsPair(before, pos1, pos2);
      forall j | 0 <= j < size
        ensures bitArray[j] == if j == pos1 || j == pos2 then 1 else before[j]
      {
        SetBitsAt(before, ps, j);
      }
      SetBitsThenAllSet(before, ps);
      forall y | AllSet(before, Positions(y)) ensures AllSet(bitArray[..], Positions(y)) {
        AllSetPreserved(before, Positions(y), ps);
      }
    }
  }

  /** Position `j` is a probe position of some key in `keys`. */
  ghost predicate Probed(filter: BloomFilter, keys: set<string>, j: nat)
    requires filter.size > 0
  {
    exists k :: k in keys && (j == filter.Hash1(k) || j == filter.Hash2(k))
  }

  class SSTable {
    const level: nat
    const data: map<string, string>
    const bloomFilter: BloomFilter

    /** The filter is a superset guard: every stored key passes it. */
    ghost predicate Valid()
      reads bloomFilter.bitArray
    {
      && bloomFilter.Valid()
      && bloomFilter.size > 0
      && forall k :: k in data ==> bloomFilter.MightContain(k)
    }

    /** Builds the filter of size 50 and registers every key of `data` in it. */
    constructor (level: nat, data: map<string, string>, pyHash: BuiltinHash, md5: Md5)
      ensures Valid()
      ensures this.level == level && this.data == data
      ensures fresh(bloomFilter) && fresh(bloomFilter.bitArray)
      ensures bloomFilter.size == DefaultFilterSize
      ensures forall j :: 0 <= j < DefaultFilterSize ==>
                (bloomFilter.bitArray[j] == 1 <==> Probed(bloomFilter, data.Keys, j))
    {
      var filter := new BloomFilter(DefaultFilterSize, pyHash, md5);
      var rest := data.Keys;
      while rest != {}
        invariant rest <= data.Keys
        invariant filter.Valid() && filter.size == DefaultFilterSize
        invariant fresh(filter) && fresh(filter.bitArray)
        invariant forall k :: k in data.Keys - rest ==> filter.MightContain(k)
        invariant forall j :: 0 <= j < DefaultFilterSize ==>
                    (filter.bitArray[j] == 1 <==> Probed(filter, data.Keys - rest, j))
        decreases |rest|
      {
        var key :| key in rest;
        ghost var done := data.Keys - rest;
        filter.Add(key);
        rest := rest - {key};
        assert data.Keys - rest == done + {key};
        forall j | 0 <= j < DefaultFilterSize
          ensures filter.bitArray[j] == 1 <==> Probed(filter, done + {key}, j)
        {
          if j == filter.Hash1(key) || j == filter.Hash2(key) {
            assert Probed(filter, done + {key}, j);
          } else if Probed(filter, done + {key}, j) {
            var k :| k in done + {key} && (j == filter.Hash1(k) || j == filter.Hash2(k));
            assert Probed(filter, done, j);
          }
        }
      }
      this.level := level;
      this.data := data;
      bloomFilter := filter;
    }

    /**
     * `get`: the stored value of `key`, or `None`. A negative filter answer
     * returns `None` straight away; a positive one falls through to the exact
     * lookup, which resolves a false positive. The gate never changes the answer.
     */
    function Get(key: string): (r: Option<string>)
      reads bloomFilter.bitArray
      requires Valid()
      ensures r == Lookup(data, key)
      ensures !bloomFilter.MightContain(key) ==> r == None
    {
      if !bloomFilter.MightContain(key) then None
      else if key in data then Some(data[key])
      else None
    }
  }

  /** The answer of a cascade over `tables`, newest first: the first table holding `key` decides. */
  function Newest(tables: seq<map<string, string>>, key: string): Option<string>
  {
    if tables == [] then None
    else if key in tables[0] then Some(tables[0][key])
    else Newest(tables[1..], key)
  }

  /** Newest wins: the first table holding `key` gives the answer. */
  lemma {:induction false} NewestIsFirstHit(tables: seq<map<string, string>>, key: string, i: nat)
    requires i < |tables| && key in tables[i]
    requires forall j :: 0 <= j < i ==> key !in tables[j]
    ensures Newest(tables, key) == Some(tables[i][key])
  {
    if i > 0 {
      NewestIsFirstHit(tables[1..], key, i - 1);
    }
  }

  /** The cascade answers `None` exactly when no table holds `key`. */
  lemma {:induction false} NewestAbsent(tables: seq<map<string, string>>, key: string)
    ensures Newest(tables, key) == None <==> forall i :: 0 <= i < |tables| ==> key !in tables[i]
  {
    if tables != [] && key !in tables[0] {
      NewestAbsent(tables[1..], key);
      assert forall i :: 1 <= i < |tables| ==> tables[i] == tables[1..][i - 1];
    }
  }

  /** The contents of the three levels the tree is built with. */
  const Level0Data: map<string, string> := map["user1" := "Alice", "user2" := "Bob", "user3" := "Charlie"]
  const Level1Data: map<string, string> := map["user4" := "David", "user5" := "Eve", "user6" := "Frank"]
  const Level2Data: map<string, string> := map["user7" := "Grace", "user8" := "Henry", "user9" := "Ivy"]

  class SimpleLSMTree {
    var levels: seq<SSTable>

    /** The objects the levels' filters keep their bits in. */
    ghost var Repr: set<object>

    ghost predicate Valid()
      reads this, Repr
    {
      forall i :: 0 <= i < |levels| ==> levels[i].bloomFilter.bitArray in Repr && levels[i].Valid()
    }

    /** The mapping of each level, newest first. */
    ghost function Tables(): (ts: seq<map<string, string>>)
      reads this
      ensures |ts| == |levels| && forall i :: 0 <= i < |levels| ==> ts[i] == levels[i].data
    {
      var ls := levels;
      seq(|ls|, i requires 0 <= i < |ls| => ls[i].data)
    }

    /** Builds levels 0, 1 and 2 in that order, so each level sits at its own index. */
    constructor (pyHash: BuiltinHash, md5: Md5)
      ensures Valid() && fresh(Repr)
      ensures |levels| == 3 && forall i :: 0 <= i < 3 ==> levels[i].level == i
      ensures Tables() == [Level0Data, Level1Data, Level2Data]
    {
      levels := [];
      var level0 := new SSTable(0, Level0Data, pyHash, md5);
      levels := levels + [level0];
      var level1 := new SSTable(1, Level1Data, pyHash, md5);
      levels := levels + [level1];
      var level2 := new SSTable(2, Level2Data, pyHash, md5);
      levels := levels + [level2];
      Repr := {level0.bloomFilter.bitArray, level1.bloomFilter.bitArray, level2.bloomFilter.bitArray};
    }

    /**
     * `get`: asks each level in list order and returns the first value found,
     * so the newest level holding `key` shadows the older ones; `None` when no
     * level holds it.
     */
    method Get(key: string) returns (r: Option<string>)
      requires Valid()
      ensures r == Newest(Tables(), key)
      ensures r == None <==> forall i :: 0 <= i < |levels| ==> key !in levels[i].data
    {
      for i := 0 to |levels|
        invariant forall j :: 0 <= j < i ==> key !in levels[j].data
      {
        var result := levels[i].Get(key);
        if result != None {
          NewestIsFirstHit(Tables(), key, i);
          return result;
        }
      }
      NewestAbsent(Tables(), key);
      return None;
    }
  }
}
