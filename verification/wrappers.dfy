/** Failure-compatible wrappers shared by every module: a JavaScript value that
    may be `null`/`undefined` is an `Option`, and an operation that may throw
    returns a `Result` whose failure carries the thrown message. */
module Wrappers {

  datatype Option<+T> = None | Some(value: T) {
    /** `x ?? d` in the source. */
    function GetOr(default: T): T {
      match this
      case Some(v) => v
      case None => default
    }
  }

  datatype Result<+R> = Ok(value: R) | Err(message: string) {
    predicate IsFailure() { Err? }

    function PropagateFailure<U>(): Result<U>
      requires Err?
    {
      Err(message)
    }

    function Extract(): R
      requires Ok?
    {
      value
    }
  }
}
