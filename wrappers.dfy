/** Optional values, for the session's `last_city` (Python None) and the resolved query. */
module Wrappers {
  datatype Option<+T> = None | Some(value: T)
}
