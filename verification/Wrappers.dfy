/** The optional value every part of the model shares. */
module Wrappers {
  datatype Option<+T> = None | Some(value: T)
}
