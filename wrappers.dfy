/** The optional-value datatype used for JavaScript's `null`/`undefined` and for absent form entries. */
module Wrappers {
  datatype Option<+T> = None | Some(value: T)
}
