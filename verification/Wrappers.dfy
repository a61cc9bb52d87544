/** A value that may be missing: `null`, `undefined`, an unset header or a thrown error,
    as each module says. */
module Wrappers {

  datatype Option<+T> = None | Some(value: T)

  /** `Map.get`: a missing key reads as None. */
  function Get<K, V>(m: map<K, V>, key: K): Option<V> {
    if key in m then Some(m[key]) else None
  }
}
