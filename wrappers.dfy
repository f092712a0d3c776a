/** The optional value every module of the model shares: Python's `None`
    or a value. */
module Wrappers {
  datatype Option<T> = None | Some(value: T)
}
