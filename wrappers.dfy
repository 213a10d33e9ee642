/** Option, Result and the outcome of a call that may throw. */
module Wrappers {

  datatype Option<+T> = None | Some(value: T)

  /** A tagged result: a value, or what went wrong. */
  datatype Result<+T, +E> = Success(value: T) | Failure(error: E)

  /** What an asynchronous call settles to: the value it returned, or the
      detail of the exception it threw (a rejected promise). */
  datatype Outcome<+T> = Returned(value: T) | Threw(detail: string)
}
