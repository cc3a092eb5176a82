/** The optional value used for nullable resources, query results and pending state changes. */
module Wrappers {
  datatype Option<+T> = None | Some(value: T)
}
