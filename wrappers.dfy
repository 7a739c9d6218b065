/** Optional values and results with a typed failure, used by every module of the model. */
module Wrappers {

  /** A value that may be missing: Go's nil pointer, nil map or "not found". */
  datatype Option<+T> = None | Some(value: T)

  /** The outcome of an operation that either yields a value or fails with an error. */
  datatype Result<+T, +E> = Ok(value: T) | Err(error: E)
}
