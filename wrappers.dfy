/** The optional value used for absent draws, errors and callback results. */
module Wrappers {
  datatype Option<+T> = None | Some(value: T)
}
