/** The failure-compatible datatypes and the byte type every other module uses. */
module Wrappers {
  datatype Option<+T> = None | Some(value: T)

  datatype Result<+T, +E> = Ok(value: T) | Err(error: E) {
    predicate IsFailure() { Err? }

    function PropagateFailure<U>(): Result<U, E>
      requires Err?
    {
      Err(error)
    }

    function Extract(): T
      requires Ok?
    {
      value
    }
  }

  newtype byte = x: int | 0 <= x < 256

  type Bytes = seq<byte>

  /** Every length the program stores in a `u64` field is below this. */
  const U64_LIMIT: nat := 0x1_0000_0000_0000_0000
}
