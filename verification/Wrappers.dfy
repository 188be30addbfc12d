/** Result of an operation that may have no value (a null pointer in the C sources). */
module Wrappers {
  datatype Option<+T> = None | Some(value: T)
}
