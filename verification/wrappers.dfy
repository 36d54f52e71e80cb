/** Optional values, used wherever the source tests a member with property_exists. */
module Wrappers {

  datatype Option<+T> = None | Some(value: T)
}
