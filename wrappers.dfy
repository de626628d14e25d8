/** Optional values: the null pointer / `None` results of the source. */
module Wrappers {

  datatype Option<+T> = None | Some(value: T)
}
