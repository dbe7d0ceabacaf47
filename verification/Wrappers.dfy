/** A value that may be missing: not reported, not readable, or not sent. */
module Wrappers {

  datatype Option<+T> = None | Some(value: T)
}
