/** The "value or nothing" wrapper used wherever the source returns `T | null`. */
module Wrappers {
  datatype Option<+T> = None | Some(value: T)
}
