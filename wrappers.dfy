// The optional value used for nullable columns and for Python's None.
module Wrappers {

  datatype Option<+T> = None | Some(value: T)
}
