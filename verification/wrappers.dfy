/** The optional value shared by the listener table and the invoke routing. */
module Wrappers {
  datatype Option<T> = None | Some(value: T)
}
