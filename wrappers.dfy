/** Option and Result values for JavaScript's `undefined`/`null` and for
    operations that either return a value or throw an error message. */
module Wrappers {

  datatype Option<+T> = None | Some(value: T)

  datatype Result<+T, +E> = Success(value: T) | Failure(error: E)
}
