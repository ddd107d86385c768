/** Failure-carrying values shared by the model. */
module Wrappers {

  /** A value that may be absent: Go's nil slice, nil pointer or nil error. */
  datatype Option<+T> = None | Some(value: T)

  /** The `(value, error)` pair of a Go function whose error path returns no value
      (a nil slice and a wrapped error). The message is the error's text. */
  datatype Result<+T> = Ok(value: T) | Err(msg: string)
}
