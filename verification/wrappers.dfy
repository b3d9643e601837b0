/** Failure-compatible wrappers used throughout the model. */
module Wrappers {

  datatype Option<+T> = None | Some(value: T)

  /** The outcome of a Python call: it returns a value or raises. */
  datatype Result<+T, +E> = Success(value: T) | Failure(error: E) {

    predicate IsFailure() {
      Failure?
    }

    function PropagateFailure<U>(): Result<U, E>
      requires Failure?
    {
      Failure(error)
    }

    function Extract(): T
      requires Success?
    {
      value
    }
  }
}

/** The Python exceptions that matter to the authentication engine and the coders. */
module Exceptions {

  datatype Exception =
    | AuthenticationError   // the engine's one rejection kind
    | KeyError              // what a session lookup raises for an unknown public key
    | TypeError             // a call with the wrong number of arguments
    | AssertionError        // a failed `assert`: a broken strategy, not untrusted input
    | OtherError(name: string)  // anything else a strategy may raise
}
