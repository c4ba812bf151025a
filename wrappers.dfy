/** Optional values and results with an error, as used throughout the routing model. */
module Wrappers {

  /** A value that may be absent; the TypeScript `T | null` / `T | undefined`. */
  datatype Option<+T> = None | Some(value: T)

  /** The outcome of a call that either returns a value or throws an error. */
  datatype Result<+T, +E> = Ok(value: T) | Err(error: E)
}
