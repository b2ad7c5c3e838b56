/** The optional-value datatype used wherever the source has a value that may be null or undefined. */
module Wrappers {

  datatype Option<+T> = None | Some(value: T)
}
