/** The optional value used throughout for nullable columns, undefined fields and failed calls, and the
    map lookup that gives one. */
module Options {
  datatype Option<+T> = None | Some(value: T)

  function Lookup<K, V>(entries: map<K, V>, k: K): Option<V> {
    if k in entries then Some(entries[k]) else None
  }
}
