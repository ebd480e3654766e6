/** Optional values: `None` stands for Python's `None` returned by a lookup that misses. */
module Wrappers {

  datatype Option<+T> = None | Some(value: T)

  /** `m.get(k)` of a Python dict: the stored value, or `None` when the key is absent. */
  function Lookup<K, V>(m: map<K, V>, k: K): (r: Option<V>)
    ensures r.Some? <==> k in m
    ensures r.Some? ==> r.value == m[k]
  {
    if k in m then Some(m[k]) else None
  }
}
