/** Option and Result, used where the source returns None or raises. */
module Wrappers {

  datatype Option<+T> = None | Some(value: T)

  /** Success carries a value; Failure carries the path whose read or parse raised. */
  datatype Result<+R, +E> = Success(value: R) | Failure(error: E)
}
