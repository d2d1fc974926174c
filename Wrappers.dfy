/** Optional values: the model's rendering of Go's `(value, err)` returns that it
    only needs to tell apart as success or failure. */
module Wrappers {

  datatype Option<+T> = None | Some(value: T)

}
