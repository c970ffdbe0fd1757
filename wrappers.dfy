/** The optional-value datatype used for JavaScript's `undefined` and for absent lookups. */
module Wrappers {

  datatype Option<+T> = None | Some(value: T)
}
