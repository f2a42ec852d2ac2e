/** A Redis instance seen through its hash commands: every key holds a hash,
    a flat mapping from field to value. */
module HashStore {
  import opened Wrappers

  type Hash<V> = map<string, map<string, V>>

  /** `Map.get`: the value under `k`, or none where Java returns null. */
  function Get<K, V>(m: map<K, V>, k: K): (r: Option<V>)
    ensures r.Some? <==> k in m
    ensures r.Some? ==> r.value == m[k]
  {
    if k in m then Some(m[k]) else None
  }

  /** `HGET key field`: the value stored under the field of the key's hash, if any. */
  function HashGet<V>(store: Hash<V>, key: string, field: string): (r: Option<V>)
    ensures r.Some? <==> key in store && field in store[key]
    ensures r.Some? ==> r.value == store[key][field]
  {
    if key in store && field in store[key] then Some(store[key][field]) else None
  }
}
