/** Optional values: the model of a TypeScript `?` field or an `undefined` result. */
module Wrappers {

  datatype Option<+T> = None | Some(value: T)

  /** `Map.prototype.get`: the value under `k`, or `undefined` when `k` is absent. */
  function Get<K, V>(m: map<K, V>, k: K): (r: Option<V>)
    ensures r.Some? <==> k in m
    ensures r.Some? ==> r.value == m[k]
  {
    if k in m then Some(m[k]) else None
  }

  /** An option holding `v` is `Some(v)`; Dafny sometimes needs this spelled out for real products. */
  lemma SomeOf(o: Option<real>, v: real)
    requires o.Some? && o.value == v
    ensures o == Some(v)
  {
  }
}
