/** The optional-value type used for JavaScript fields that may be absent (undefined or null). */
module Wrappers {
  datatype Option<+T> = None | Some(value: T)
}
