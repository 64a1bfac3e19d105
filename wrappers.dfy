/** Optional values, standing for Python's `None` where the source uses it. */
module Wrappers {

  datatype Option<+T> = None | Some(value: T)

}
