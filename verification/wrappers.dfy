/** Failure-carrying results shared by every module of the model. */
module Wrappers {

  /** A value that may be absent: JavaScript's `undefined`/`null` result of a lookup. */
  datatype Option<+T> = None | Some(value: T) {
    function GetOr(default: T): T {
      match this
      case Some(v) => v
      case None => default
    }
  }

  /** The outcome of an operation that may throw: `Failure` carries the error message. */
  datatype Result<+T> = Success(value: T) | Failure(error: string) {
    predicate IsFailure() {
      Failure?
    }

    function PropagateFailure<U>(): Result<U>
      requires Failure?
    {
      Failure(error)
    }

    function Extract(): T
      requires Success?
    {
      value
    }
  }
}
