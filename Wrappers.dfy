/** Optional values: the model's stand-in for C# `null` and for nullable value types such as `int?`. */
module Wrappers {

  datatype Option<+T> = None | Some(value: T)
}
