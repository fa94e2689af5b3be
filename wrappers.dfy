/** Option: a value that may be absent (a null reference or a missing entry in the source). */
module Wrappers {

  datatype Option<+T> = None | Some(value: T)
}
