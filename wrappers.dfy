/** The optional value used for JavaScript's `undefined`/`null`/`NaN` results and for SQL NULL. */
module Wrappers {

  datatype Option<+T> = None | Some(value: T)
}
