/** Optional values: a field or payload that may be missing (JavaScript's `undefined`, or `NaN` from a parse). */
module Wrappers {

  datatype Option<+T> = None | Some(value: T)
}
