/** The usual optional value, standing for Go's `error` result (nil or not). */
module Wrappers {
  datatype Option<+T> = None | Some(value: T)
}
