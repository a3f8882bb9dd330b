/** The optional value used for docstrings, export lists and class owners. */
module Wrappers {
  datatype Option<+T> = None | Some(value: T)
}
