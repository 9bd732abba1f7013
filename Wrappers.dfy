/** Optional values and results with an error, used by every other module. */
module Wrappers {

  /** A value that may be missing (JavaScript's `undefined`/`null`). */
  datatype Option<+T> = None | Some(value: T)

  /** The outcome of a request: a reply, or one of the request's error answers. */
  datatype Result<+R, +E> = Success(value: R) | Failure(error: E)
}
