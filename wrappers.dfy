/** Optional values, used wherever the Python code returns None or may not
    produce a value. */
module Wrappers {

  datatype Option<+T> = None | Some(value: T)
}
