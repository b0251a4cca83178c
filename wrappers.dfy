/** Optional values: the Java source's nullable references. */
module Wrappers {
  datatype Option<T> = None | Some(value: T)
}
