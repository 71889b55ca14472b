/** Option and Result, the two shapes every fallible operation of the model returns. */
module Wrappers {

  /** An optional value; None stands for Python's None. */
  datatype Option<+T> = None | Some(value: T)

  /** The outcome of an operation that may raise: Ok carries the value, Err the exception. */
  datatype Result<+T, +E> = Ok(value: T) | Err(error: E)
}
