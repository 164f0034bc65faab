/** Optional values: the model's stand-in for `undefined`, `null` and a thrown exception. */
module Wrappers {
  datatype Option<+T> = None | Some(value: T)
}
