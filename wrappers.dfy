/** Optional values: a JavaScript property that may be `undefined` (or `null`). */
module Wrappers {

  datatype Option<+T> = None | Some(value: T)

  /** The value a map holds for `key`, or None when the key is absent. */
  function Get<K, V>(m: map<K, V>, key: K): (r: Option<V>)
    ensures r.Some? <==> key in m
    ensures r.Some? ==> m[key] == r.value
  {
    if key in m then Some(m[key]) else None
  }
}
