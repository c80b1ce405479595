/** Python's `None` and JavaScript's `null`/`undefined`, for values that may be absent. */
module Wrappers {
  datatype Option<+T> = None | Some(value: T)
}
