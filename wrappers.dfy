/** Failure-compatible result types shared by every service module.
    A service call either yields a value or fails with the message text
    the source throws. */
module Wrappers {

  datatype Option<+T> = None | Some(value: T) {
    function GetOr(default: T): T {
      match this
      case Some(v) => v
      case None => default
    }
  }

  /** The value a service call returns, or the message of the error it throws. */
  datatype Result<+T> = Ok(value: T) | Err(msg: string) {
    predicate IsFailure() { Err? }

    function PropagateFailure<U>(): Result<U>
      requires Err?
    {
      Err(msg)
    }

    function Extract(): T
      requires Ok?
    {
      value
    }
  }

  /** A service call that returns nothing of interest, or throws. */
  datatype Outcome = Done | Failed(msg: string) {
    predicate IsFailure() { Failed? }

    function PropagateFailure(): Outcome
      requires Failed?
    {
      this
    }
  }
}
