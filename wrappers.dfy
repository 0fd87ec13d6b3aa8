/**
 * The optional value used wherever the Go code reports absence with a
 * second result, and the value-or-error pair of functions that return an
 * `error`.
 */
module Wrappers {
  datatype Option<T> = None | Some(value: T)

  datatype Result<T, E> = Success(value: T) | Failure(error: E)
}
