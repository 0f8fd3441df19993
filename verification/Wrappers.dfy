/** The optional value used throughout the model where the source has nil. */
module Wrappers {
  datatype Option<+T> = None | Some(value: T)
}
