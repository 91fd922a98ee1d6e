/** Optional values: the result of a lookup that may find nothing. */
module Wrappers {

  /** `None` when nothing was found, `Some(value)` otherwise. */
  datatype Option<+T> = None | Some(value: T)
}
