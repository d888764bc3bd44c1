/** Optional values, used for the engine's "not found" and "failed" results. */
module Wrappers {

  datatype Option<+T> = None | Some(value: T)

}
