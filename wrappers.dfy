/** An optional value: a database column that may be NULL, or a query with no row. */
module Wrappers {

  datatype Option<+T> = None | Some(value: T)
}
