/** Option and Result values standing in for Java's null references and thrown exceptions. */
module Wrappers {

  /** A value that may be absent: the model of a Java reference that may be null. */
  datatype Option<+T> = None | Some(value: T)

  /** The outcome of a computation that may abort. */
  datatype Result<+T, +E> = Ok(value: T) | Err(error: E)

  /** `Map.get`: the value stored under `k`, or None when `k` is not a key. */
  function Get<K, V>(m: map<K, V>, k: K): (r: Option<V>)
    ensures r.Some? <==> k in m
    ensures r.Some? ==> r.value == m[k]
  {
    if k in m then Some(m[k]) else None
  }
}
