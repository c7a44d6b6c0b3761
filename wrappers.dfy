/** The value of a JavaScript lookup that may come back `undefined`. */
module Wrappers {

  datatype Option<+T> = None | Some(value: T)

}
