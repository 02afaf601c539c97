/** Outcomes of the services: the three exception kinds they throw, and the
    value-or-error results that stand in for "return or throw". */
module Outcomes {

  /** ResourceNotFoundException, IllegalArgumentException and the
      RuntimeException raised when a collaborator cannot be reached. Each
      carries the exception's message. */
  datatype Error =
    | NotFound(message: string)
    | InvalidArgument(message: string)
    | Unavailable(message: string)

  datatype Result<+T> = Success(value: T) | Failure(error: Error)

  /** The outcome of a `void` operation: it returns, or it throws. */
  datatype Outcome = Pass | Fail(error: Error)

  datatype Option<+T> = None | Some(value: T)
}
