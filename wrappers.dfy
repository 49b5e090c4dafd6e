/** The optional value used for Go's `error` results and for "not found". */
module Wrappers {
  datatype Option<+T> = None | Some(value: T)
}
