/** The failure-carrying types and the few functions that the other modules share. */
module Prelude {

  datatype Option<+T> = None | Some(value: T)

  /** The outcome of a call whose error text does not matter to the caller. */
  datatype Outcome<+T> = Ok(value: T) | Failed

  datatype Result<+T, +E> = Success(value: T) | Failure(error: E)

  type Byte = b: int | 0 <= b < 256

  function Min(a: int, b: int): int {
    if a <= b then a else b
  }

  function Max(a: int, b: int): int {
    if a >= b then a else b
  }
}
