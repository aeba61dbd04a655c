// Optional values: a handle the SDK may fail to return, a window lookup that may miss.
module Wrappers {
  datatype Option<+T> = None | Some(value: T)
}
