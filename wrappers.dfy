/** Go's "nil or a value" results, written out as an option. */
module Wrappers {

  datatype Option<+T> = None | Some(value: T)
}
