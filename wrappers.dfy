/** The optional value used where the animator yields no value (an `undefined`). */
module Wrappers {

  datatype Option<+T> = None | Some(value: T)
}
