/** Optional values: the model's stand-in for C# `null` references. */
module Wrappers {

  datatype Option<+T> = None | Some(value: T)
}
