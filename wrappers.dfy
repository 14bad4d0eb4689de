/** The optional value used for "no device" style answers. */
module Wrappers {
  datatype Option<+T> = None | Some(value: T)
}
