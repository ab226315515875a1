/** The optional value used for the source's `undefined`-able fields and for the session slot. */
module Wrappers {

  datatype Option<+T> = None | Some(value: T)
}
