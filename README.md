# Bloom filters and an LSM lookup cascade, in Dafny

This project models the Bloom-filter code of the `bloom-filter/` directory:

- **The sized filter** (`bloom_filter.py`, module `KHashBloom`): a bit list of
  `size` cells, an add counter, and `hashCount` probes per item, the i-th being
  md5 of `str(item) + str(i)` reduced mod `size`. `Add` writes the probed bits
  and counts the call; `Check` is the "may contain" test; `GetStats` reports
  the set-bit count. The object invariant says the bits are exactly those of a
  fresh list after adding the history of added items in turn; from it follows
  the filter's central promise that every item ever added passes `Check` (no
  false negatives).
- **The fixed two-hash filter** (`simple_bloom_filter.py`, module `SimpleBloom`):
  probes `hash(str(x)) % size` and `md5(x) % size`.
- **The LSM cascade** (`lsm_bloom_filter.py`, module `LsmBloom`): the same
  two-hash filter; an `SSTable` whose keys are all registered in its own
  filter at construction, with a filter-gated `Get` that gives exactly the
  dict lookup; and a `SimpleLSMTree` whose `Get` asks its levels newest first,
  so the newest level holding a key shadows the older ones.

Shared value-level facts live in `BitArray` (writing 1s at a probe list, the
"all probes set" test, `sum` of the list) and `Digest` (the hash primitives and
`str(i)`). `Wrappers` holds `Option` and the dict lookup.

The hash primitives (md5 read as an integer, Python's process-salted `hash()`)
are foreign code. They are function values given to each filter at
construction, so every proved fact holds for any hash functions. The filters'
items are modelled by their `str()` text; md5 is taken over that text, which
UTF-8 encodes injectively. The LSM keys are strings, as they are for the
source's only caller (bloom-filter/lsm_bloom_filter.py:71-79), so the text
the filter hashes is the very key the dict looks up.

The model follows the code where it departs from the textbook Bloom filter:
probes are `md5(str(item) + str(i)) % size`, not a double-hashing formula; the
sizing truncates with `int()` rather than rounding up or forcing at least one
hash, so `hashCount` may be 0, and then `Check` accepts every item
(`KHashBloom.BloomFilter.NoProbesAcceptsAll`).

## Model

| member | source | states |
|---|---|---|
| `KHashBloom.BloomFilter.constructor` | bloom-filter/bloom_filter.py:27-36 | a fresh filter has `size` zero bits, `count = 0` and nothing added |
| `KHashBloom.Probe` | bloom-filter/bloom_filter.py:71-73 | the i-th probe position lies in `[0, size)` |
| `KHashBloom.Probes` | bloom-filter/bloom_filter.py:68-76 | the probe list has exactly `hashCount` entries, each in `[0, size)`, the i-th being probe i of the item |
| `KHashBloom.BloomFilter.Hash` | bloom-filter/bloom_filter.py:60-76 | `_hash` returns exactly the probe list, a function of item, hash count, size and md5 only |
| `KHashBloom.BloomFilter.SetPositions` | bloom-filter/bloom_filter.py:83-84 | the loop of `add` leaves the bit list equal to the old list with 1 written at each probe position |
| `KHashBloom.BloomFilter.Add` | bloom-filter/bloom_filter.py:78-86 | sets exactly the probed bits, `count` grows by 1 on every call (duplicates too), the item then passes the test, every item that passed still passes, the set-bit count does not fall, and the bits stay those of adding the whole history to a fresh list |
| `KHashBloom.BloomFilter.Check` | bloom-filter/bloom_filter.py:89-101 | true iff every probe position holds 1 (so true with no probes, false iff some probe bit is 0), true for every added item, and changes nothing |
| `KHashBloom.BloomFilter.GetStats` | bloom-filter/bloom_filter.py:116-126 | on a non-empty list, reports size, hash count and add count, and `bits_set` equals the number of 1s and is at most `size` |
| `KHashBloom.BloomFilter.NoProbesAcceptsAll` | bloom-filter/bloom_filter.py:97-101 | on a filter with a hash count of 0, every item passes the test |
| `KHashBloom.BloomFilter.AddedPass` | bloom-filter/bloom_filter.py:10-12 | every item ever added to the filter passes the test (no false negatives) |
| `KHashBloom.AddAll` | bloom-filter/bloom_filter.py:161-162 | adding a sequence of items keeps the bit list at length `size` |
| `KHashBloom.NoFalseNegatives` | bloom-filter/bloom_filter.py:171-175 | after any sequence of adds, every item of the sequence passes the test |
| `BitArray.Zeros` | bloom-filter/bloom_filter.py:33 | `[0] * n` has length `n` and only zeros |
| `BitArray.SetBits` | bloom-filter/bloom_filter.py:83-84 | writing 1 at a probe list keeps the list's length |
| `BitArray.SetBitsAt` | bloom-filter/bloom_filter.py:82-84 | after the writes, a cell holds 1 if it was probed and its old value otherwise |
| `BitArray.SetBitsNeverClears` | bloom-filter/bloom_filter.py:84 | no cell goes from 1 to 0 |
| `BitArray.SetBitsThenAllSet` | bloom-filter/bloom_filter.py:82-101 | right after writing the probes of an item, the test on those probes succeeds |
| `BitArray.AllSetPreserved` | bloom-filter/bloom_filter.py:97-101 | a test that succeeds still succeeds after any further writes |
| `BitArray.AllSetPair` | bloom-filter/simple_bloom_filter.py:45 | on two probes the test is "both bits are 1" |
| `BitArray.SetBitsPair` | bloom-filter/simple_bloom_filter.py:34-35 | on two probes the writes are the two assignments in order |
| `BitArray.SumCountsOnes` | bloom-filter/bloom_filter.py:120 | `sum(bit_array)` is the number of 1s |
| `BitArray.SumBounded` | bloom-filter/bloom_filter.py:120-127 | the number of set bits is at most the list length |
| `BitArray.SumMonotone` | bloom-filter/bloom_filter.py:120 | raising cells never lowers the sum |
| `BitArray.SetBitsSumMonotone` | bloom-filter/bloom_filter.py:82-86 | an add never lowers the set-bit count |
| `Digest.DecimalString` | bloom-filter/bloom_filter.py:71 | `str(i)` is a non-empty string of decimal digits with no leading zero |
| `Digest.DecimalRoundTrip` | bloom-filter/bloom_filter.py:69-71 | reading `str(i)` back gives `i` |
| `Digest.ProbeInputsDistinct` | bloom-filter/bloom_filter.py:69-72 | distinct probe indices hash distinct strings for the same item |
| `SimpleBloom.SimpleBloomFilter.constructor` | bloom-filter/simple_bloom_filter.py:10-16 | a new filter has `size` zero bits |
| `SimpleBloom.SimpleBloomFilter.Hash1` | bloom-filter/simple_bloom_filter.py:20-22 | the built-in-hash probe is in `[0, size)` |
| `SimpleBloom.SimpleBloomFilter.Hash2` | bloom-filter/simple_bloom_filter.py:24-27 | the md5 probe is in `[0, size)` |
| `SimpleBloom.SimpleBloomFilter.Check` | bloom-filter/simple_bloom_filter.py:39-48 | true iff both probe bits are 1, the general "all probes set" test; it reads the bits and changes nothing |
| `SimpleBloom.SimpleBloomFilter.Add` | bloom-filter/simple_bloom_filter.py:29-35 | sets exactly the two probe bits, changes no other bit, keeps the length; the item then passes `Check` and every item that passed still passes |
| `LsmBloom.BloomFilter.constructor` | bloom-filter/lsm_bloom_filter.py:7-9 | a new filter has `size` zero bits |
| `LsmBloom.BloomFilter.Hash1` | bloom-filter/lsm_bloom_filter.py:11-12 | the built-in-hash probe is in `[0, size)` |
| `LsmBloom.BloomFilter.Hash2` | bloom-filter/lsm_bloom_filter.py:14-16 | the md5 probe is in `[0, size)` |
| `LsmBloom.BloomFilter.MightContain` | bloom-filter/lsm_bloom_filter.py:25-29 | true iff both probe bits are 1 |
| `LsmBloom.BloomFilter.Add` | bloom-filter/lsm_bloom_filter.py:18-23 | sets exactly the two probe bits and no other; the key then passes `MightContain` and every key that passed still does |
| `LsmBloom.SSTable.constructor` | bloom-filter/lsm_bloom_filter.py:35-42 | keeps `level` and `data`, builds a fresh filter of size 50 whose set bits are exactly the two probe positions of the keys of `data`, and every key of `data` passes it |
| `LsmBloom.SSTable.Get` | bloom-filter/lsm_bloom_filter.py:46-61 | equals the dict lookup (`data[key]` if present, else `None`); a negative filter answer gives `None` |
| `Wrappers.Lookup` | bloom-filter/lsm_bloom_filter.py:56-61 | `Some` exactly when the key is present, holding its stored value |
| `LsmBloom.NewestIsFirstHit` | bloom-filter/lsm_bloom_filter.py:86-89 | the cascade returns the value of the first (newest) table holding the key |
| `LsmBloom.NewestAbsent` | bloom-filter/lsm_bloom_filter.py:86-92 | the cascade returns `None` iff no table holds the key |
| `LsmBloom.SimpleLSMTree.constructor` | bloom-filter/lsm_bloom_filter.py:67-80 | three levels built in order, level number equal to index, with the three fixed mappings |
| `LsmBloom.SimpleLSMTree.Get` | bloom-filter/lsm_bloom_filter.py:82-92 | asks levels in list order; returns the newest level's value for the key, and `None` iff no level holds it |

## Left out

- The floating-point sizing `_get_size` and `_get_hash_count` (bloom-filter/bloom_filter.py:44-58): `size` and `hashCount` are constructor inputs. The constructor requires `hashCount == 0 || size > 0`, which every output of that sizing with a non-negative size meets (a size of 0 comes with a hash count of 0).
- `get_current_error_rate`, `bits_set_ratio` and the statistical false-positive experiment: floating point. `GetStats` reports `size`, `hash_count`, `added_items` and `bits_set`, and omits `capacity`, `bits_set_ratio` and `estimated_error_rate`.
- GetStats (KHashBloom.BloomFilter.GetStats): requires a list of length at least 1. With `size` 0 (reachable, e.g. capacity 1 and error rate 0.9) the source's `get_stats` raises `ZeroDivisionError` at `bits_set / self.size`, and the model does not model that error path.
- md5 and Python's built-in `hash()` are foreign calls; they are arbitrary function parameters. The salting of `hash()` between processes is not modelled; one process uses one function.
- All console output: `print` narration, `visualize_bit_array`, `show_bits`, every `main`, and hash_demo.py.
- A negative `size` or `hash_count`, which a negative capacity produces (capacity -10 with error rate 0.1 gives size -47 and hash count 3): sizes and counts are natural numbers.
- A two-hash filter built with size 0: `Add`, `Check` and `MightContain` require `size > 0`, where the source raises `ZeroDivisionError`.
- `SSTable(level, data=None)`: the `None` default becomes `{}` in the source; the model takes the mapping itself.
- LsmBloom.SSTable: the source keeps a reference to the caller's non-empty dict (`data or {}`), so a later change to that dict by the caller would show through `self.data` without its keys reaching the filter. The model takes the mapping as a value fixed at construction; that the filter gate never changes the answer of `Get` therefore assumes the dict is never changed afterwards, which no code in the repository does.
- Non-string keys in the LSM cascade: the filter hashes `str(key)` while the dict looks up `key`, so for keys whose text differs from the key (an integer key looked up by its text) the two disagree; the model's keys are strings.
- `None` as a stored value: values are strings, and `None` only means "absent".
- The key iteration order of `SSTable.__init__`: keys are registered in an arbitrary order, which cannot change the final bits.
- RocksDBService.kt, RocksDBController.kt and WebController.kt are not part of this model: a wrapper over a native library and HTTP endpoints.
