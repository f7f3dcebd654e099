/** The two failure-compatible wrappers the model uses: a value that may be
    missing (Ruby's `nil`) and a value or an error (a raised exception). */
module Wrappers {

  datatype Option<+T> = None | Some(value: T)

  datatype Result<+R, +E> = Success(value: R) | Failure(error: E)
}
