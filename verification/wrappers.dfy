/** An optional value (Go's nil-able pointers and interfaces) and a
    value-or-error result (Go's `(T, error)` return pairs). */
module Wrappers {

  datatype Option<+T> = None | Some(value: T)

  datatype Result<+T, +E> = Success(value: T) | Failure(error: E)
}
