/** Failure-carrying wrappers shared by the classifier and the prober. */
module Wrappers {

  /** A value that may be absent; `None` stands for Go's nil error. */
  datatype Option<+T> = None | Some(value: T)

  /** Either a value or the error that prevented computing it. */
  datatype Result<+T, +E> = Ok(value: T) | Err(error: E)
}
