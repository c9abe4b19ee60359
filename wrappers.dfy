/** Optional values and results with an error, shared by the other modules. */
module Wrappers {

  /** A value that may be absent (Python's `None`). */
  datatype Option<+T> = None | Some(value: T)

  /** The outcome of a computation that may raise. */
  datatype Result<+T, +E> = Ok(value: T) | Err(error: E)
}
