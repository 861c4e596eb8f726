// A value that may be absent: null pointers and empty optionals of the source.
module Wrappers {
  datatype Option<+T> = None | Some(value: T)
}
