/** Small value types shared by every module of the model. */
module Common {
  /** An octet, as in the source's `u8` and `Vec<u8>`. */
  newtype byte = x: int | 0 <= x < 256

  datatype Option<T> = None | Some(value: T)

  datatype Result<T, E> = Ok(value: T) | Err(error: E)

  datatype Unit = Unit

  function Min(a: int, b: int): int { if a <= b then a else b }

  function Max(a: int, b: int): int { if a >= b then a else b }

  /** `n` zero bytes: what `set_len` puts into a freshly created file. */
  function Zeros(n: nat): (z: seq<byte>)
    ensures |z| == n && forall p :: 0 <= p < n ==> z[p] == 0
  {
    seq(n, _ => 0 as byte)
  }
}
