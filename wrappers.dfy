/** The optional value used by the text conversions. */
module Wrappers {
  datatype Option<T> = None | Some(value: T)
}
