/** The optional value that stands in for Go's `nil` results and `(value, ok)` pairs. */
module Wrappers {

  datatype Option<+T> = None | Some(value: T)
}
