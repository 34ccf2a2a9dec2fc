/** Optional values: `None` stands for JavaScript's `null`/`undefined` where the source returns them. */
module Wrappers {

  datatype Option<+T> = None | Some(value: T)
}
