/** Error values shared by every component: Go's `error` (nil means success). */
module Outcomes {

  /** A non-nil Go error, identified by its message. */
  datatype Error = Error(message: string)

  /** The value of a Go `error` result: nil (`Success`) or an error. */
  datatype Outcome = Success | Failure(error: Error)

  datatype Option<+T> = None | Some(value: T)

  /** A value or an error, for the source's `(T, error)` result pairs. */
  datatype Result<+T> = Ok(value: T) | Err(error: Error)
}
