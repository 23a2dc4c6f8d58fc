/** Optional values (an absent field, a missing map entry, or JavaScript's NaN) and map lookup. */
module Wrappers {

  datatype Option<+T> = None | Some(value: T) {

    /** The value if present, otherwise `default`. */
    function GetOr(default: T): T {
      match this
      case Some(v) => v
      case None => default
    }
  }

  /**
   * A lookup on a map's own keys: the entry for `key`, or None when there is
   * none (JavaScript's `obj[key] || null` on a table without inherited names).
   */
  function Lookup<K, V>(m: map<K, V>, key: K): (r: Option<V>)
    ensures r.Some? <==> key in m
    ensures r.Some? ==> r.value == m[key]
  {
    if key in m then Some(m[key]) else None
  }
}
