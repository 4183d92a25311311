/** The optional value used wherever the Go code returns "value, ok" or a nil-able error. */
module Wrappers {

  datatype Option<+T> = None | Some(value: T)
}
