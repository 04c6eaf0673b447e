/** Result types shared by every component. */
module Wrappers {

  datatype Option<+T> = None | Some(value: T)

  /** What a `ValueError` complains about. */
  datatype Reason =
    | SecretField | Malformed | Missing | NotNumeric | NotPositive | Unsupported | Unavailable
    | NotFound | Declined | Mismatch | TooSmall | TooLarge | WrongSide

  /** How a Python call ends: with a value, with a `ValueError` the caller may catch and
      turn into a rejection, or with any other exception, which nothing below the lease
      loop catches. */
  datatype Try<+T> = Ok(value: T) | ValueError(reason: Reason) | Crash
  {
    predicate IsFailure() {
      !Ok?
    }

    function PropagateFailure<U>(): Try<U>
      requires IsFailure()
    {
      if Crash? then Crash else ValueError(reason)
    }

    function Extract(): T
      requires !IsFailure()
    {
      value
    }
  }
}
