/** Small value-level helpers shared by the other modules. */
module Base {

  /** A value that may be absent; also stands for a call into a collaborator that raised. */
  datatype Option<+T> = None | Some(value: T)

  /** Python's `d.get(key, default)` on a dictionary. */
  function Get<K, V>(d: map<K, V>, key: K, default: V): (v: V)
    ensures key in d ==> v == d[key]
    ensures key !in d ==> v == default
  {
    if key in d then d[key] else default
  }
}
