/** Presence and failure wrappers shared by the codec modules. */
module Wrappers {

  /** An optional value: None stands for Python's None on a request field. */
  datatype Option<+T> = None | Some(value: T)

  /** The outcome of a decoder: the decoded value or the exception it raises. */
  datatype Result<+R, +E> = Success(value: R) | Failure(error: E) {

    predicate IsFailure() {
      Failure?
    }

    function PropagateFailure<U>(): Result<U, E>
      requires Failure?
    {
      Failure(error)
    }

    function Extract(): R
      requires Success?
    {
      value
    }
  }
}
