/** Optional values and step results shared by the other modules. */
module Wrappers {

  /** A value that may be absent, standing for JavaScript's `undefined`/`null`. */
  datatype Option<+T> = None | Some(value: T)

  /** The value of a step that either succeeds or throws an `Error` with a message. */
  datatype Result<+T, +E> = Success(value: T) | Failure(error: E)
}
