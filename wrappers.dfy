/** The optional value used where the Java code returns `null` or may fail to produce a value. */
module Wrappers {
  datatype Option<+T> = None | Some(value: T)
}
