/** Failure-compatible wrappers shared by every module of the model. */
module Wrappers {

  /** An optional value: Go's nil pointer or a missing request. */
  datatype Option<T> = None | Some(value: T)

  /** The (value, error) pair a Go function returns, with exactly one side set. */
  datatype Result<T, E> = Success(value: T) | Failure(error: E) {
    predicate IsFailure() {
      Failure?
    }
  }
}
