/** The option and result types every other module uses. */
module Prelude {
  datatype Option<+T> = None | Some(value: T)

  datatype Result<+T, +E> = Ok(value: T) | Err(error: E)

  /** Modulus of the 64-bit counters and clocks. */
  const U64: nat := 0x1_0000_0000_0000_0000

  type byte = b: int | 0 <= b < 256

  function Lookup<K, V>(values: map<K, V>, key: K): Option<V> {
    if key in values then Some(values[key]) else None
  }

  ghost predicate Distinct<T>(s: seq<T>) {
    forall i, j :: 0 <= i < j < |s| ==> s[i] != s[j]
  }
}
