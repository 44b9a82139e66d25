/** Option: a value that the source represents as a possibly-null pointer. */
module Wrappers {

  datatype Option<+T> = None | Some(value: T)

}
