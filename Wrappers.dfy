/** Failure-carrying result types used in place of Swift's `throws` and failable initialisers. */
module Wrappers {

  /** The outcome of a failable initialiser (`init?`): a value or `nil`. */
  datatype Option<+T> = None | Some(value: T)

  /** The outcome of a throwing function that returns a value. */
  datatype Result<+T, +E> = Ok(value: T) | Err(error: E)

  /** The outcome of a throwing function that returns nothing. */
  datatype Outcome<+E> = Pass | Fail(error: E)
}
