/** Optional values: a metric k6 did not report, a ratio with a zero denominator. */
module Wrappers {
  datatype Option<+T> = None | Some(value: T)
}
