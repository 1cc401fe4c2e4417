/** Kotlin's nullable values (`String?`) as an explicit option. */
module Options {

  datatype Option<+T> = None | Some(value: T)

  /** Kotlin's `m[key]` on a `Map<String, String>`: null when the key is absent. */
  function Get<K, V>(m: map<K, V>, key: K): (r: Option<V>)
    ensures r.Some? <==> key in m
    ensures r.Some? ==> r.value == m[key]
  {
    if key in m then Some(m[key]) else None
  }
}
