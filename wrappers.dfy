/** Optional values and results of remote calls that may throw. */
module Wrappers {

  /** A value that may be absent (`null`/`undefined` in the client). */
  datatype Option<+T> = None | Some(value: T)

  /** The outcome of a step that either yields a value or aborts with an error. */
  datatype Result<+T, +E> = Success(value: T) | Failure(error: E)
}
