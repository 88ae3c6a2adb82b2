/** Optional values and results with an error, shared by the other modules. */
module Wrappers {

  /** A value that may be absent, as `undefined`/`null` is in the scanner's configuration. */
  datatype Option<+T> = None | Some(value: T)

  /** The outcome of an operation that can throw or reject. */
  datatype Result<+T, +E> = Ok(value: T) | Err(error: E)
}
