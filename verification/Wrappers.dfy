// Optional values, used wherever the Go code has a nil pointer or a missing entry.
module Wrappers {
  datatype Option<+T> = None | Some(value: T)
}
