/** Option and Result datatypes. */
module Wrappers {

  /** An optional value: Python's `None` or a present value. */
  datatype Option<+T> = None | Some(value: T)

  /** Either a value or the error that a raised exception carries. */
  datatype Result<+R, +E> = Success(value: R) | Failure(error: E)
}
