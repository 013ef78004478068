/** The failures the model reports, and the result type carrying them. */
module Errors {

  /** The two failures the model reports, each an exception of the script:
      a ward name missing from the table (a dictionary lookup failure), and
      a division whose divisor is zero. */
  datatype Error = InvalidWard | DivisionByZero

  datatype Result<T> = Ok(value: T) | Err(error: Error)
}
