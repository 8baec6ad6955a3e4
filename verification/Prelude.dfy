/** The few types every component of the model shares. */
module Prelude {
  datatype Option<+T> = None | Some(value: T)

  newtype u8 = b: int | 0 <= b < 256

  type Bytes = seq<u8>

  function Min(a: int, b: int): int {
    if a < b then a else b
  }

  function Max(a: int, b: int): int {
    if a < b then b else a
  }

  function Get<K, V>(m: map<K, V>, k: K): Option<V> {
    if k in m then Some(m[k]) else None
  }

  /** Concatenation associates, and a first element stays first. */
  lemma Assoc<T>(a: seq<T>, b: seq<T>, c: seq<T>)
    ensures a + b + c == a + (b + c)
  {
  }

  lemma HeadTail<T>(x: T, s: seq<T>, t: seq<T>)
    ensures ([x] + s + t)[0] == x && ([x] + s + t)[1..] == s + t
  {
  }
}
