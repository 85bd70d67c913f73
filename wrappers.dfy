/** Optional values: `None` stands for an absent value (JavaScript's `undefined`). */
module Wrappers {

  datatype Option<+T> = None | Some(value: T)
}
