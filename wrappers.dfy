/** Option for Java's nullable / Optional values, and Attempt for a computation that may throw. */
module Wrappers {

  datatype Option<+T> = None | Some(value: T)

  /** The outcome of a Java expression that either yields a value or throws an exception. */
  datatype Attempt<+T> = Done(value: T) | Threw

  /** `m.get(k)` on a Java map, with null as None. */
  function MapGet<K, V>(m: map<K, V>, k: K): (r: Option<V>)
    ensures r.Some? <==> k in m
    ensures r.Some? ==> r.value == m[k]
  {
    if k in m then Some(m[k]) else None
  }
}
