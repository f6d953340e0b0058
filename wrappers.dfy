/** Optional values: an absent image path, a cancelled dialog, an exhausted id space. */
module Wrappers {
  datatype Option<+T> = None | Some(value: T)
}
