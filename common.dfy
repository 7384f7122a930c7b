/** Failure-carrying wrappers shared by the model: Python's `None` and raised
    exceptions become explicit values. */
module Common {

  /** An optional value: Python's `None` versus a present value. */
  datatype Option<+T> = None | Some(value: T)

  /** A computation that either returns a value or raises an error. */
  datatype Result<+R, +E> = Success(value: R) | Failure(error: E)

  /** A computation whose only result is whether it raised. */
  datatype Outcome<+E> = Pass | Fail(error: E)
}
