/** Failure-carrying results used by the readers and the monitor tick. */
module Outcomes {

  /** A value that may be absent: a `/proc` file that could not be opened, a field that did not parse. */
  datatype Option<+T> = None | Some(value: T)

  /** The outcome of an operation that can fail with an error of type `E`. */
  datatype Result<+T, +E> = Ok(value: T) | Err(error: E)
}
