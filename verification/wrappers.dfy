/** Optional values: the model's stand-in for JavaScript's `undefined` and `null`. */
module Wrappers {

  /** `None` where JavaScript holds `undefined` or `null`, `Some(v)` otherwise. */
  datatype Option<+T> = None | Some(value: T)
}
