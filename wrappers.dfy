/** Optional values: JavaScript's `undefined`/`null` where the screen tests for them. */
module Wrappers {

  datatype Option<+T> = None | Some(value: T)
}
