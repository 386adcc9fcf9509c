/** The optional value used for parse results and captured exceptions. */
module Wrappers {
  datatype Option<+T> = None | Some(value: T)
}
