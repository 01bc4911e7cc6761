/** Option and Result: the model's stand-ins for JavaScript's `null`/`undefined`
    and for the `(err, value)` pairs that callbacks receive. */
module Wrappers {

  datatype Option<+T> = None | Some(value: T)

  datatype Result<+T, +E> = Success(value: T) | Failure(error: E)
}
