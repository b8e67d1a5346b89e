/** Failure-compatible wrappers shared by every module of the model. */
module Wrappers {

  /** A value that may be absent: Python's `None` or a value. */
  datatype Option<+T> = None | Some(value: T) {
    function GetOr(default: T): T {
      match this
      case Some(v) => v
      case None => default
    }
  }

  /** The value of an operation, or the exception it raises. */
  datatype Result<+T> = Ok(value: T) | Raise(error: string) {
    predicate IsFailure() { Raise? }
    function PropagateFailure<U>(): Result<U>
      requires Raise?
    {
      Raise(error)
    }
    function Extract(): T
      requires Ok?
    {
      value
    }
  }

  /** An operation that either completes or raises, and returns nothing. */
  datatype Outcome = Pass | Fail(error: string)
}
