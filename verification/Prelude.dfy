/** Values shared by every part of the model: optional results, byte strings, Go's
    map reads (a missing key reads as the zero value) and Go's 32-bit counter. */
module Prelude {

  datatype Option<+T> = None | Some(value: T)

  newtype byte = x: int | 0 <= x < 256

  type Bytes = seq<byte>

  /** `m[k]` in Go: the zero value when the key is missing. */
  function Lookup<K, V>(m: map<K, V>, k: K, zero: V): V {
    if k in m then m[k] else zero
  }

  /** `v, ok := m[k]` in Go. */
  function Find<K, V>(m: map<K, V>, k: K): Option<V> {
    if k in m then Some(m[k]) else None
  }

  /** The value an `int32` holds after arithmetic that mathematically gives `n`. */
  function Int32(n: int): (r: int)
    ensures -0x8000_0000 <= r < 0x8000_0000
    ensures -0x8000_0000 <= n < 0x8000_0000 ==> r == n
  {
    (n + 0x8000_0000) % 0x1_0000_0000 - 0x8000_0000
  }

  function Concat(chunks: seq<Bytes>): Bytes {
    if chunks == [] then [] else Concat(chunks[..|chunks| - 1]) + chunks[|chunks| - 1]
  }

  lemma ConcatSnoc(chunks: seq<Bytes>, b: Bytes)
    ensures Concat(chunks + [b]) == Concat(chunks) + b
  {
    assert (chunks + [b])[..|chunks|] == chunks;
  }

  /** What becomes of an SQL statement: it reaches the server and works if the keys allow it,
      the server refuses it, or it fails before reaching the server. */
  datatype Statement = Works | Refused | Unsent
}
