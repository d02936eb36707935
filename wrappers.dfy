/** Optional values: `None` stands for JavaScript's `undefined` (a missing key) and NaN. */
module Wrappers {
  datatype Option<+T> = None | Some(value: T)
}
