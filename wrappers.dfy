/** Optional values: stands for JavaScript's `undefined`, a failed parse, or a missing element. */
module Wrappers {

  datatype Option<+T> = None | Some(value: T)
}
