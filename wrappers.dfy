/** Option and Result: the shapes the model uses for JavaScript's `undefined`
    and for a promise that resolves with a value or rejects with an error. */
module Wrappers {

  datatype Option<+T> = None | Some(value: T)

  datatype Result<+T, +E> = Success(value: T) | Failure(error: E)
}
