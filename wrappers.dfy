/** Optional values, used wherever the source returns "nothing". */
module Wrappers {

  datatype Option<+T> = None | Some(value: T)
}
