/** The optional value used wherever JavaScript may hand back `undefined`. */
module Wrappers {

  datatype Option<+T> = None | Some(value: T)
}
