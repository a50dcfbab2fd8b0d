/** Option and Result, used for values that may be absent and for the
    exceptions the converter raises. */
module Wrappers {

  datatype Option<+T> = None | Some(value: T)

  datatype Result<+R, +E> = Success(value: R) | Failure(error: E)
}
