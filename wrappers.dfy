/** Failure-carrying values shared by every module of the model. */
module Wrappers {

  datatype Option<+T> = None | Some(value: T)

  /** The Python exceptions the modelled code can raise on its own data. */
  datatype PyError = KeyError | TypeError | ZeroDivisionError

  datatype Result<+T> = Ok(value: T) | Err(error: PyError)
}
