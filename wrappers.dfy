/** Optional values: `None` stands for a Python exception raised while computing the value. */
module Wrappers {
  datatype Option<+T> = None | Some(value: T)
}
