/** Optional values: JavaScript's `null`/`undefined` and "the call threw". */
module Wrappers {
  datatype Option<+T> = None | Some(value: T)
}
