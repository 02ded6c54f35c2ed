/** Option and Result: the error paths of the model are values, not exceptions. */
module Wrappers {

  datatype Option<+T> = None | Some(value: T)

  /** Success carries a value; Failure carries the message of the exception
      the Python code would raise. */
  datatype Result<+T> = Success(value: T) | Failure(error: string)
}
