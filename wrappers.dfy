/** Failure-carrying results shared by the profile store and the recommenders. */
module Wrappers {

  datatype Option<+T> = None | Some(value: T)

  datatype Result<+R, +E> = Success(value: R) | Failure(error: E)

  /** An operation that returns nothing on success (the `{"status": "ok"}` replies). */
  datatype Outcome<+E> = Pass | Fail(error: E)
}
