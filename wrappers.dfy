/** Option and Result, and the exceptions the plugins raise, as values. */
module Wrappers {

  datatype Option<+T> = None | Some(value: T)

  /** The exception classes that the modelled code raises or lets escape. */
  datatype Error =
    | InvalidEntityReference(msg: string)
    | EntityResolutionError(msg: string)
    | RegistrationError(msg: string)
    | PreflightError(msg: string)
    | ValueError(msg: string)
    /** An `ftrack.FTrackError` raised by the ftrack API. */
    | FTrackError(msg: string)
    /** An IndexError, KeyError, TypeError or UnboundLocalError from Python itself. */
    | RuntimeFault(msg: string)

  datatype Result<+T> = Success(value: T) | Failure(error: Error) {
    predicate IsFailure() { Failure? }
    function PropagateFailure<U>(): Result<U>
      requires Failure?
    {
      Failure(error)
    }
    function Extract(): T
      requires Success?
    {
      value
    }
  }
}
