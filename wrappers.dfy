/** The optional value used for tags that a body may or may not carry. */
module Wrappers {
  datatype Option<+T> = None | Some(value: T)
}
