/** Optional values. `None` stands for Go's `nil` wherever an `error` may be absent. */
module Wrappers {

  datatype Option<+T> = None | Some(value: T)
}
