/** Optional values: `None` stands for a C# `null` reference or for a decoding that threw. */
module Wrappers {

  datatype Option<+T> = None | Some(value: T)
}
