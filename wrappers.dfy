/** Option and Result: the model's stand-ins for Python's None and for a raised exception. */
module Wrappers {

  datatype Option<+T> = None | Some(value: T)

  /** `Err` carries the exception message (or the HTTP detail) the source produces. */
  datatype Result<+T> = Ok(value: T) | Err(error: string)

  /** A step that returns normally, or raises with the given message. */
  datatype Outcome = Pass | Fail(error: string)
}
