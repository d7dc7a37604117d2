/** Optional values: JavaScript's `null`/`undefined` (and NaN, for numbers) become `None`. */
module Wrappers {

  datatype Option<+T> = None | Some(value: T)
}
