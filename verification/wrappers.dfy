/** Optional values and results with an error, shared by the pattern models. */
module Wrappers {

  /** A value that may be absent; stands for Java's `null` where the source returns it. */
  datatype Option<+T> = None | Some(value: T)

  /** The outcome of an operation that may raise an exception instead of returning. */
  datatype Result<+R, +E> = Success(value: R) | Failure(error: E)
}
