/** Option and Result: the model's stand-ins for PHP's null and for an operation that may throw. */
module Wrappers {

  /** A nullable value: `None` stands for PHP's `null`. */
  datatype Option<+T> = None | Some(value: T)

  /** The outcome of an operation that either returns a value or throws. */
  datatype Result<+T, +E> = Ok(value: T) | Err(error: E)
}
