/** The optional value: Go's nil-able pointers to ids and points. */
module Wrappers {

  datatype Option<+T> = None | Some(value: T)
}
