/** The optional-value datatype used across the metrics model. */
module Wrappers {

  /** Some value, or nothing: stands for Go's nil pointers and nil errors. */
  datatype Option<+T> = None | Some(value: T)
}
