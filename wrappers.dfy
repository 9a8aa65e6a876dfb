/** Optional values, for a getter that may not exist and a command that may not be sent. */
module Wrappers {
  datatype Option<+T> = None | Some(value: T)
}
