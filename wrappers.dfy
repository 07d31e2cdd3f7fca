/** The optional value returned by handlers that may produce nothing. */
module Wrappers {
  datatype Option<+T> = None | Some(value: T)
}
