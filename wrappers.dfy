/** Optional values and fallible results, standing in for Swift's `T?` and `throws`. */
module Wrappers {

  /** Swift's `Optional<T>`: `nil` is `None`. */
  datatype Option<+T> = None | Some(value: T)

  /** The outcome of an operation that `throws` in the source. */
  datatype Result<+T, +E> = Success(value: T) | Failure(error: E)
}
