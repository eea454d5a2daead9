/** The optional value used wherever the source returns a nil-able result. */
module Wrappers {
  datatype Option<+T> = None | Some(value: T)
}
