/** Shared value types used by the event pipeline and the account rules. */
module Common {

  datatype Option<+T> = None | Some(value: T)

  /** A value stored in one of the source's `Map<String, Object>` maps.
      `Other` stands for any object that is neither an integer nor a string. */
  datatype Value = IntVal(i: int) | StrVal(s: string) | Other(tag: nat)

  /** The Java exceptions that can escape an operation of the core. */
  datatype Exception =
    | NullPointer
    | IllegalArgument
    | ClassCast
    | RuntimeFromIO

  /** How a Java call ends: it returns a value or throws. */
  datatype Outcome<+T> = Returned(value: T) | Threw(exception: Exception)

  function Lookup<K, V>(m: map<K, V>, k: K): (r: Option<V>)
    ensures r.Some? <==> k in m
    ensures r.Some? ==> r.value == m[k]
  {
    if k in m then Some(m[k]) else None
  }
}
