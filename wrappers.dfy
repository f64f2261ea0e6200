/** The optional value used for a null reference or an operation that may fail. */
module Wrappers {
  datatype Option<T> = None | Some(value: T)
}
