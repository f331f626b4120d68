/** Optional values: JavaScript's `null` and Python's missing dictionary entries. */
module Wrappers {

  datatype Option<+T> = None | Some(value: T)
}
