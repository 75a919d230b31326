/** Failure-carrying wrappers shared by the gateway and the course store. */
module Wrappers {

  /** A value that may be absent; Python's `None` is `None` here. */
  datatype Option<+T> = None | Some(value: T)

  /** Either a value or an error; the gateway's raised `HTTPException`s become `Failure`. */
  datatype Result<+T, +E> = Success(value: T) | Failure(error: E)
}
