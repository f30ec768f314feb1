/** The optional value used wherever the C++ code passes a pointer that may be null. */
module Wrappers {
  datatype Option<+T> = None | Some(value: T)
}
