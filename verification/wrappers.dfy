/** The Some/None datatype used for the JavaScript values that may be `undefined`. */
module Wrappers {

  datatype Option<+T> = None | Some(value: T)
}
