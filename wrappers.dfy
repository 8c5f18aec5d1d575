/** Failure-carrying result types shared by the whole model: the source signals
    misses with `undefined`/`false` and errors with exceptions; the model makes
    both explicit values. */
module Wrappers {

  /** A possibly absent value; `None` stands for JavaScript's `undefined`. */
  datatype Option<+T> = None | Some(value: T)

  /** The outcome of an operation that yields a value or raises an error. */
  datatype Result<+R, +E> = Success(value: R) | Failure(error: E)

  /** The outcome of an operation that yields nothing or raises an error. */
  datatype Outcome<+E> = Pass | Fail(error: E)
}
