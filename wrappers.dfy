/** Optional values and results with an error, used where the Go code returns
    a nil slice, a nil map, a missing map entry or an `error`. */
module Wrappers {

  datatype Option<+T> = None | Some(value: T)

  datatype Result<+T, +E> = Success(value: T) | Failure(error: E)

  /** Go's `m[k]` on a map of slices: the stored slice, or nil (here: empty) when `k` is absent. */
  function LookupOrEmpty<K, V>(m: map<K, seq<V>>, k: K): seq<V>
  {
    if k in m then m[k] else []
  }

  /** Go's comma-ok lookup `v, ok := m[k]`. */
  function Get<K, V>(m: map<K, V>, k: K): Option<V>
  {
    if k in m then Some(m[k]) else None
  }
}
