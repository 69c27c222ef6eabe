/** Option and Result, used for absent fields and for handler outcomes. */
module Wrappers {

  datatype Option<+T> = None | Some(value: T)

  /** Outcome of a handler: a success value, or the error the handler answers with. */
  datatype Result<+R, +E> = Success(value: R) | Failure(error: E)
}
