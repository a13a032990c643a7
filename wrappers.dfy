/** Option and Result values, and the Python exceptions that escape from the modelled code. */
module Wrappers {

  /** A value that may be absent. */
  datatype Option<+T> = None | Some(value: T)

  /** The Python exceptions the modelled code raises or lets escape. */
  datatype Exception =
    | ValueError(message: string)
    | KeyError(key: string)
    | IndexError
    | TypeError
    | ZeroDivisionError
    | UnboundLocalError

  /** The outcome of a call that may raise. */
  datatype Result<+T> = Ok(value: T) | Err(error: Exception)
}
