/** Option and Result, used for the values pandas may not have and for the
    exceptions the attribution code can raise. */
module Wrappers {

  datatype Option<+T> = None | Some(value: T)

  datatype Result<+R, +E> = Success(value: R) | Failure(error: E)
}
