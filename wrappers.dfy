/** Optional values, used where a flag byte may name no member of an enumeration. */
module Wrappers {
  datatype Option<+T> = None | Some(value: T)
}
