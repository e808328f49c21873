/** The optional-value type used by the file-system model for operations that may raise. */
module Wrappers {

  datatype Option<+T> = None | Some(value: T)

}
