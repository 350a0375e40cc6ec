/** The optional value that stands for Python's None and for an absent key. */
module Wrappers {
  datatype Option<+T> = None | Some(value: T)
}
