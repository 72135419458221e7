/** The optional value used for "not found" results (JavaScript's `undefined` and `-1`). */
module Wrappers {
  datatype Option<+T> = None | Some(value: T)
}
