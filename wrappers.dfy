/** Optional values, used for the error-or-none results of page-block generation. */
module Wrappers {
  datatype Option<+T> = None | Some(value: T)
}
