/** Option and Result values for the source's `null` returns and thrown errors. */
module Wrappers {

  datatype Option<+T> = None | Some(value: T)

  /** `Err` carries the message of the error a JavaScript call would throw. */
  datatype Result<+T> = Ok(value: T) | Err(message: string)
}
