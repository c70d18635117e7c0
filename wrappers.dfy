/** Option and Result, used for the Python values that may be None and for
    the exceptions the application lets escape. */
module Wrappers {

  datatype Option<+T> = None | Some(value: T)

  datatype Result<+R, +E> = Success(value: R) | Failure(error: E)
}
