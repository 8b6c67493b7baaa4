/** Small shared datatypes. */
module Wrappers {

  /** A value that may be absent, for JavaScript's `null` / `undefined`. */
  datatype Option<+T> = None | Some(value: T)
}
