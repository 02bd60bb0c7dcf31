/** The optional value shared by the other modules. */
module Wrappers {

  /** A value that may be absent: a nil pointer, a missing map entry, an empty path. */
  datatype Option<+T> = None | Some(value: T)
}
