/** Optional values: a missing query parameter, a missing session, a lookup with no match. */
module Wrappers {

  datatype Option<+T> = None | Some(value: T)
}
