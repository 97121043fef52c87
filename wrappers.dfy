/** The optional value used throughout the model: a Python value that may be `None`. */
module Wrappers {
  datatype Option<+T> = None | Some(value: T)
}
