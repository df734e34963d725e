/** The "value or nothing" result used where the source returns an object or `null`. */
module Wrappers {
  datatype Option<+T> = None | Some(value: T)
}
