/** Optional values: the model's counterpart of a Python value that may be `None`. */
module Wrappers {

  datatype Option<+T> = None | Some(value: T)
}
