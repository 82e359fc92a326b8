/** Optional values: the pointers of the source, and its error returns as None. */
module Wrappers {

  datatype Option<+T> = None | Some(value: T)
}
