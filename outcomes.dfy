/** Failure-carrying results used across the model. */
module Outcomes {

  /** Either a value or nothing, as a failed `float()` conversion gives. */
  datatype Option<+T> = None | Some(value: T)

  /** Either a value or the error the Python code would raise. */
  datatype Result<+T, +E> = Ok(value: T) | Err(error: E)
}
