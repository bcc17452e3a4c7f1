/** The optional value shared by the gesture model and the row expander. */
module Wrappers {

  datatype Option<T> = None | Some(value: T)
}
