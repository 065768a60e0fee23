/** The optional value used for SQL's nullable columns and Python's None. */
module Wrappers {
  datatype Option<+T> = None | Some(value: T)
}
