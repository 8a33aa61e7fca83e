/** Option and Result, for the partial operations of the model. */
module Wrappers {

  /** An optional value: a dictionary lookup that may miss, a parse that may fail. */
  datatype Option<+T> = None | Some(value: T)

  /** The outcome of an operation that raises on bad input: the value, or the error raised. */
  datatype Result<+T, +E> = Success(value: T) | Failure(error: E)
}
