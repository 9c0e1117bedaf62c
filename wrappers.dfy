/** Go's `(value, error)` returns, as a value that is either a result or an error. */
module Wrappers {

  datatype Result<+T, +E> = Success(value: T) | Failure(error: E)
}
