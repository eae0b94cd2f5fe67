/** Failure-compatible wrappers shared by the modules of the model. */
module Results {

  /** A value that may be absent (JavaScript's `undefined` or `null`). */
  datatype Option<T> = None | Some(value: T) {
    /** The value, or `default` when absent. */
    function GetOr(default: T): T {
      if Some? then value else default
    }
  }

  /** The outcome of an operation that can throw: its value, or the thrown error's message. */
  datatype Result<T> = Ok(value: T) | Err(message: string)

  /** The outcome of a check that returns nothing or throws. */
  datatype Outcome = Pass | Fail(message: string)
}
