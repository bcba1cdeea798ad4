/**
  Failure-carrying values shared by every module of the model: Python's
  `Optional[...]` becomes `Option`, and a call that may raise becomes a
  `Result` (a value or the exception) or an `Outcome` (nothing or the exception).
*/
module Wrappers {

  datatype Option<+T> = None | Some(value: T)

  datatype Result<+T, +E> = Ok(value: T) | Err(error: E)

  datatype Outcome<+E> = Pass | Fail(error: E)
}
