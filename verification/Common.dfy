/** Small types shared by every component. */
module Common {
  datatype Option<+T> = None | Some(value: T)

  /** Go's map read: the zero value stands in for a missing key. */
  function Get<K, V>(m: map<K, V>, k: K, missing: V): (v: V)
    ensures k in m ==> v == m[k]
    ensures k !in m ==> v == missing
  {
    if k in m then m[k] else missing
  }
}
