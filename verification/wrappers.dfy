/** Option and Result, the two wrappers the model uses for JavaScript's optional
    properties and thrown errors. */
module Wrappers {

  datatype Option<+T> = None | Some(value: T)

  datatype Result<+R, +E> = Success(value: R) | Failure(error: E)
}
