/** Optional values, used where the generator reads something that may be absent. */
module Wrappers {
  datatype Option<+T> = None | Some(value: T)
}
