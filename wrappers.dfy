/** Option and Result values for absent data and failing operations. */
module Wrappers {

  /** A value that may be absent: JavaScript's `null`/`undefined` or a missing key. */
  datatype Option<+T> = None | Some(value: T)

  /** The outcome of an operation that may throw. */
  datatype Result<+T, +E> = Success(value: T) | Failure(error: E)

  /** Looks `k` up in `m`, giving `None` when the key is missing. */
  function Lookup<K, V>(m: map<K, V>, k: K): (r: Option<V>)
    ensures r.Some? <==> k in m
    ensures r.Some? ==> m[k] == r.value
  {
    if k in m then Some(m[k]) else None
  }
}
