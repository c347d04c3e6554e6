/** Absent and present values, as the models below share them. */
module Wrappers {
  datatype Option<+T> = None | Some(value: T)
}
