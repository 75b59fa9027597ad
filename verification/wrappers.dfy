/** Failure-carrying values shared by every module of the model. */
module Wrappers {
  /** A value that may be absent: a nil pointer, an unset optional field, a JavaScript `undefined`. */
  datatype Option<T> = None | Some(value: T)

  /** The `(value, error)` pair that the Go code returns: either a value or an error message. */
  datatype Result<T> = Ok(value: T) | Err(msg: string)
}
