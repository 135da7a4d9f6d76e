/** The result of a lookup that may find nothing (JavaScript's `undefined`). */
module Optional {

  datatype Option<T> = None | Some(value: T)

  /** Looks `key` up in `m`, answering None for a missing key. */
  function Get<K, V>(m: map<K, V>, key: K): (r: Option<V>)
    ensures r.Some? <==> key in m
    ensures r.Some? ==> r.value == m[key]
  {
    if key in m then Some(m[key]) else None
  }
}
