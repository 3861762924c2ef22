/** The optional value used for C pointers that may be NULL and for JSON members that may be absent. */
module Wrappers {
  datatype Option<+T> = None | Some(value: T)
}
