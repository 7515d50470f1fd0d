/** Optional values and results with an error, as used by the conversion engine. */
module Wrappers {

  /** A value that may be absent (Python's `None`). */
  datatype Option<+T> = None | Some(value: T)

  /** The outcome of a computation that may raise an exception. */
  datatype Result<+T, +E> = Ok(value: T) | Err(error: E)
}
