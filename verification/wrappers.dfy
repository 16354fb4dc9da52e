/** Failure-compatible result types shared by every module of the model.
    - Option<T> stands for a JavaScript value that may be `null`/`undefined`.
    - Result<T> stands for a computation that either returns a value or throws
      an `Error`; only the error's `message` is observable in the model. */
module Wrappers {

  datatype Option<+T> = None | Some(value: T) {

    /** The value, or `default` when absent (JavaScript's `x ?? default`). */
    function GetOr(default: T): T {
      match this
      case Some(v) => v
      case None => default
    }
  }

  datatype Result<+T> = Ok(value: T) | Error(message: string) {

    predicate IsFailure() {
      Error?
    }

    function PropagateFailure<U>(): Result<U>
      requires Error?
    {
      Error(message)
    }

    function Extract(): T
      requires Ok?
    {
      value
    }
  }
}
