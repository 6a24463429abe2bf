/** The Option datatype used in place of the C++ null pointer and of a thrown exception. */
module Wrappers {

  datatype Option<+T> = None | Some(value: T)
}
