/** Optional values, used for "nothing is sent" and for a JavaScript TypeError. */
module Wrappers {
  datatype Option<+T> = None | Some(value: T)
}
