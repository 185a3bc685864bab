/** The optional value and the outcome of an operation that may raise, shared by the other modules. */
module Wrappers {

  /** A value that may be absent; `None` stands for a pandas NaN or a Python `None`. */
  datatype Option<+T> = None | Some(value: T)

  /** The outcome of an operation that may raise: `Err` carries the exception. */
  datatype Result<+T, +E> = Ok(value: T) | Err(error: E)
}
