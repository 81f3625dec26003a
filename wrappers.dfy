/** Failure-carrying values shared by the whole model. */
module Wrappers {

  /** PHP's `null` / JavaScript's `null`/`undefined` next to a present value. */
  datatype Option<+T> = None | Some(value: T)

  /** A value or the error a call would raise instead. */
  datatype Result<+T, +E> = Ok(value: T) | Err(error: E)
}
