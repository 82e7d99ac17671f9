/** Bytes and the small sequence vocabulary shared by the other modules. */
module Bytes {
  // A `char` of the program, read as unsigned.
  type byte = b: int | 0 <= b < 256

  datatype Option<+T> = None | Some(value: T)

  /** The later of two updates of one key is the one that stays. */
  lemma UpdatedTwice<K, V>(m: map<K, V>, k: K, a: V, b: V)
    ensures m[k := a][k := b] == m[k := b]
  {
  }
}
