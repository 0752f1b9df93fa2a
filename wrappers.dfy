/** Optional values and results with an error path, shared by every module. */
module Wrappers {

  /** A value that may be absent (Python `None`, JavaScript `undefined`/`null`). */
  datatype Option<+T> = None | Some(value: T)

  /** The outcome of an operation that can raise instead of returning. */
  datatype Result<+T, +E> = Ok(value: T) | Err(error: E)
}
