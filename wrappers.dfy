/** Optional values: JavaScript's `null` / `undefined` for a missing selection. */
module Wrappers {

  datatype Option<+T> = None | Some(value: T)
}
