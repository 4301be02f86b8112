/** Failure-compatible wrappers shared by the whole model. */
module Wrappers {

  /** A value that may be absent: Python's `None` versus a fetched row or id. */
  datatype Option<+T> = None | Some(value: T)

  /** Either a value or the exception that interrupted the computation. */
  datatype Result<+T, +E> = Ok(value: T) | Err(error: E)

  /** Dictionary-style lookup that reports a missing key instead of failing. */
  function Lookup<K, V>(m: map<K, V>, k: K): (r: Option<V>)
    ensures r.Some? <==> k in m
    ensures r.Some? ==> r.value == m[k]
  {
    if k in m then Some(m[k]) else None
  }
}
