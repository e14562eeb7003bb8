/**
 * Vocabulary shared by the wrapper and the engine stand-in: bytes, keys and
 * values, engine handles and nullable native pointers.
 */
module Common {

  /** An unsigned 8-bit byte, as the engine's `char` buffers hold them. */
  newtype byte = b: int | 0 <= b < 256

  type Key = seq<byte>
  type Value = seq<byte>

  /** An opaque engine handle: the address of a native object. Never reused. */
  type Handle = nat

  /** A native pointer that may be null. */
  datatype Ptr = Null | At(h: Handle)

  datatype Option<+T> = None | Some(value: T)

  /** A name that converts to a C string: no interior NUL character. */
  predicate NoNul(s: string)
  {
    forall i | 0 <= i < |s| :: s[i] != '\0'
  }
}
