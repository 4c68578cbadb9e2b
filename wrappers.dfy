/** Optional values, used where the source returns `null`/`undefined` or a lookup may miss. */
module Wrappers {
  datatype Option<+T> = None | Some(value: T)
}
