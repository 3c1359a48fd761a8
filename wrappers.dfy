/** The Option type used wherever the client holds a value that may be
    `undefined` or `null` (a query result that has not arrived, a missing
    search parameter). */
module Wrappers {

  datatype Option<+T> = None | Some(value: T)
}
