/** Option and result values shared by the other modules. */
module Wrappers {

  datatype Option<+T> = None | Some(value: T)

  /** What an operation returns to its caller: a value, or the message of the error it raised. */
  datatype Result<+T> = Ok(value: T) | Err(message: string)
}
