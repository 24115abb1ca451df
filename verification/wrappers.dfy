/** Optional values and error-carrying results, shared by every module of the model. */
module Wrappers {

  /** A value that may be missing: `null`/`undefined` in the source. */
  datatype Option<+T> = None | Some(value: T)

  /** The outcome of an operation that either returns a value or throws with a message. */
  datatype Result<+T, +E> = Ok(value: T) | Err(error: E)
}
