/** The optional value a single-row query returns: the row, or nothing. */
module Wrappers {
  datatype Option<+T> = None | Some(value: T)
}
