/** The optional value used wherever the Go code has a pointer or a map lookup that may miss. */
module Wrappers {
  datatype Option<+T> = None | Some(value: T)
}
