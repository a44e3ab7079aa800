/** Optional values: a JavaScript `undefined` or a missing React element is `None`. */
module Wrappers {
  datatype Option<+T> = None | Some(value: T)
}
