/** Failure-compatible wrappers shared by every module of the model. */
module Base {

  /** A value that may be absent (JavaScript `undefined` / `null`). */
  datatype Option<+T> = None | Some(value: T)

  /** The outcome of an operation that may throw: the success value, or the thrown error's message. */
  datatype Result<+T, +E> = Ok(value: T) | Err(error: E)
}
