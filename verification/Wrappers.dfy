/** The optional value used where SimpleSmartCtl returns a nullable reference. */
module Wrappers {
  datatype Option<+T> = None | Some(value: T)
}
