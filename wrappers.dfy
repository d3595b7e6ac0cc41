/** The two failure-carrying datatypes the model uses: a Go nil
    value is `None`, an `(x, err)` pair is a `Result`. */
module Wrappers {

  datatype Option<+T> = None | Some(value: T)

  datatype Result<+T, +E> = Success(value: T) | Failure(error: E)
}
