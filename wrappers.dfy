/** The optional value used where the logger may produce nothing. */
module Wrappers {
  datatype Option<+T> = None | Some(value: T)
}
