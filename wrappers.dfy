/** Datatypes standing for Swift optionals and `throws`. */
module Wrappers {

  /** Swift's `Optional`: `None` is `nil`. */
  datatype Option<+T> = None | Some(value: T)

  /** The result of a throwing Swift call that returns a value. */
  datatype Result<+R, +E> = Success(value: R) | Failure(error: E)

  /** The result of a throwing Swift call that returns `Void`. */
  datatype Outcome<+E> = Pass | Fail(error: E)
}
