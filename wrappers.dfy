/** Optional values: a null pointer or an absent promise is `None`. */
module Wrappers {
  datatype Option<+T> = None | Some(value: T)
}
