/** Failure-carrying values shared by the cache facade and the one-shot gate.
    The source throws exceptions; the model returns them as values. */
module Results {

  datatype Option<T> = None | Some(value: T)

  /** The exceptions the core can raise. */
  datatype Error =
    | ClosingError(message: string)    // an operation on a closing or closed cache
    | TypeError(message: string)       // `once` given something that is not a function
    | AssertionError(check: string)    // an option check of the factory failed; `check` names it
    | CalleeError(reason: string)      // whatever a wrapped function throws

  datatype Result<T> = Ok(value: T) | Err(error: Error)

  datatype Outcome = Pass | Fail(error: Error)
}
