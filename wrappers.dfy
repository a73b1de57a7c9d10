/** A Java reference that may be null, and any other optional value. */
module Wrappers {

  datatype Option<+T> = None | Some(value: T)
}
