/** The result of an operation that may produce nothing, such as a TryParse. */
module Wrappers {

  datatype Option<+T> = None | Some(value: T)
}
