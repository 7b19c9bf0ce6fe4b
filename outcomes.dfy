/** Optional values, thrown errors and results, shared by the other modules. */
module Outcomes {

  datatype Option<+T> = None | Some(value: T)

  /** A thrown JavaScript `Error`; only its message is observable to callers. */
  datatype Error = Error(message: string)

  /** The settled state of a promise: fulfilled with a value or rejected with an error. */
  datatype Result<+T> = Ok(value: T) | Err(error: Error)
}
