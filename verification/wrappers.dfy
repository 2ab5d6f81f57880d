/** Optional values, used where the middleware falls back to a default. */
module Wrappers {

  datatype Option<+T> = None | Some(value: T)

}
