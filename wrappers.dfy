/** Python's `None`-or-value, as used for dictionary `.get` results and optional settings. */
module Wrappers {

  datatype Option<+T> = None | Some(value: T)

  /** `m.get(k)`: the value stored under `k`, or `None` when `k` is absent. */
  function Get<K, V>(m: map<K, V>, k: K): (o: Option<V>)
    ensures o.Some? <==> k in m
    ensures o.Some? ==> o.value == m[k]
  {
    if k in m then Some(m[k]) else None
  }
}
