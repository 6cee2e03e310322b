/** The optional result of an operation that may find nothing to return. */
module Wrappers {
  datatype Option<+T> = None | Some(value: T)
}
