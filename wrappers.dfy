/** Optional values: an absent cookie, an action without a status, a plan id with no match. */
module Wrappers {

  datatype Option<+T> = None | Some(value: T)
}
