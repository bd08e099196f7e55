/** The usual failure-carrying values. */
module Wrappers {
  datatype Option<+T> = None | Some(value: T)
}
