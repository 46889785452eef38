/** Optional values, standing in for Kotlin's nullable types (`T?`). */
module Wrappers {

  /** `None` is Kotlin's `null`; `Some(v)` a present value. */
  datatype Option<+T> = None | Some(value: T)
}
