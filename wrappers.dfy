/** Option and Result, the shapes used for optional configuration fields and for
    operations that reject (an async function that throws). */
module Wrappers {

  /** A value that may be absent (`undefined` in the source). */
  datatype Option<+T> = None | Some(value: T)

  /** The outcome of an operation that may throw: a value or the error message. */
  datatype Result<+T> = Ok(value: T) | Err(error: string)
}
