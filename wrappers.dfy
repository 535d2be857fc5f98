/** Optional values and call results, used for the `null`-able fields and for the outcome of a remote call. */
module Wrappers {

  /** A value that may be absent: `null` / `undefined` in the application. */
  datatype Option<+T> = None | Some(value: T)

  /** The outcome of a call that either succeeds with a value or fails with an error. */
  datatype Result<+R, +E> = Success(value: R) | Failure(error: E)
}
