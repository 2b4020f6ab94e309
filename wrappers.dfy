/** Option and Result, the failure-carrying values the rest of the model returns. */
module Wrappers {

  /** `None` plays the part of JavaScript's `undefined`. */
  datatype Option<+T> = None | Some(value: T)

  /** `Err` carries what the source throws (or the promise rejects with). */
  datatype Result<+T, +E> = Ok(value: T) | Err(error: E)
}
