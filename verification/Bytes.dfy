/** Vocabulary shared by the other modules. */
module Bytes {

  newtype byte = x: int | 0 <= x < 256

  type Stream = seq<byte>

  datatype Option<T> = None | Some(value: T)

  function Min(a: nat, b: nat): nat {
    if a < b then a else b
  }

  function Max(a: nat, b: nat): nat {
    if a < b then b else a
  }
}
