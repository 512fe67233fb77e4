/** The optional-value datatype used across the model. */
module Wrappers {

  /** A value that may be absent (a Java `null`, or an operation that produced nothing). */
  datatype Option<+T> = None | Some(value: T)
}
