/** The optional value used wherever the app reads something that may be absent. */
module Wrappers {
  datatype Option<+T> = None | Some(value: T)
}
