/** The optional value used for a cookie that a request may or may not carry. */
module Wrappers {

  datatype Option<+T> = None | Some(value: T)
}
