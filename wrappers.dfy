/** Optional values and results with an error, as used throughout the model. */
module Wrappers {

  /** A value that may be absent (a JavaScript `undefined`, a Go nil). */
  datatype Option<+T> = None | Some(value: T)

  /** The outcome of a call that may fail with an error of type E. */
  datatype Result<+T, +E> = Ok(value: T) | Err(error: E)
}
