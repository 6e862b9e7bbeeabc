/** Optional values: a JavaScript `undefined` or falsy lookup becomes None. */
module Wrappers {
  datatype Option<+T> = None | Some(value: T)
}
