/** Option: the stand-in for the firmware's null pointers and "not found" results. */
module Wrappers {
  datatype Option<+T> = None | Some(value: T)
}
