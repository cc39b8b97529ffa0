/** Failure-carrying results for the dtype registry.

    The registry reports every failure by raising a `DtypeError` that carries a
    human-readable message. Here that exception becomes a value: operations that
    produce a dtype return a `Result`, and the equality guard, which produces
    nothing on success, returns an `Outcome`.
 */
module Outcomes {

  /** The single error kind of the registry: a diagnostic message. */
  datatype DtypeError = DtypeError(message: string)

  /** Either nothing or one value. */
  datatype Option<+T> = None | Some(value: T)

  /** A value on success, or the error that would have been raised. */
  datatype Result<+T> = Ok(value: T) | Err(error: DtypeError)

  /** Normal return (no value), or the error that would have been raised. */
  datatype Outcome = Pass | Fail(error: DtypeError)
}
