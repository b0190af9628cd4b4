/** Optional values: `None` stands for a C NULL pointer or "nothing found". */
module Wrappers {
  datatype Option<T> = None | Some(value: T)
}
