/** The optional value used for configuration entries that may be unset. */
module Wrappers {
  datatype Option<+T> = None | Some(value: T)
}
