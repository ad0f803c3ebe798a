/** The optional value used wherever the editor passes `null` or `undefined`. */
module Wrappers {

  datatype Option<+T> = None | Some(value: T)
}
