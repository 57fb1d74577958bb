/** Option and result datatypes shared by every module. */
module Wrappers {

  /** An optional value: `None` stands for JavaScript's `undefined`/`null`. */
  datatype Option<+T> = None | Some(value: T)

  /** The outcome of an operation that may throw: `Failure` carries the thrown error. */
  datatype Result<+T, +E> = Success(value: T) | Failure(error: E)
}
