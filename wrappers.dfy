/** The optional value used for callback invocations that may not happen. */
module Wrappers {

  datatype Option<+T> = None | Some(value: T)
}
