/** Failure-carrying values shared by every module: Go's `(value, error)` pairs
    become `Result`, and "maybe absent" values become `Option`. */
module Wrappers {

  datatype Option<+T> = None | Some(value: T)

  datatype Result<+T, +E> = Success(value: T) | Failure(error: E)
}
