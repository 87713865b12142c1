/** Optional values, for the places where the modelled code checks for a missing value. */
module Wrappers {

  datatype Option<+T> = None | Some(value: T)
}
