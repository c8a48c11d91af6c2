/** The optional-value datatype used for JavaScript's `undefined` and for "no error". */
module Wrappers {
  datatype Option<+T> = None | Some(value: T)
}
