/** Optional and exceptional results, standing in for java.util.Optional and for exceptions. */
module Wrappers {

  /** An optional value: `Optional.empty()` or `Optional.of(value)`. */
  datatype Option<+T> = None | Some(value: T)

  /** A computation that either returns a value or throws. */
  datatype Result<+R, +E> = Success(value: R) | Failure(error: E)
}
