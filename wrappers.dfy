/** Presence of a value: the shape of a JavaScript object key that may be missing. */
module Wrappers {

  datatype Option<+T> = None | Some(value: T)
}
