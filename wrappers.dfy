/** Option and Result values for the absent and failing outcomes of the panel's operations. */
module Wrappers {

  /** An optional value: `None` stands for Python's `None` return. */
  datatype Option<+T> = None | Some(value: T)

  /** The outcome of a call that can raise: `Err` carries the exception's message. */
  datatype Result<+T> = Ok(value: T) | Err(message: string)
}
