/** Optional values: Python's `None` and the `get`/`next(..., None)` lookups. */
module Wrappers {

  datatype Option<+T> = None | Some(value: T)
}
