/** Small shared datatypes. */
module Wrappers {

  /** A value that may be absent: a discarded request, a table read that has no entry. */
  datatype Option<+T> = None | Some(value: T)
}
