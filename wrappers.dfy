/** The optional value used wherever the source gets back `null` or `undefined`. */
module Wrappers {
  datatype Option<+T> = None | Some(value: T)
}
