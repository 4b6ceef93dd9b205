/** The optional value used for "found / not found" and "set / not yet set". */
module Wrappers {

  datatype Option<+T> = None | Some(value: T)
}
