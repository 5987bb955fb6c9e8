/** Optional values: Go's "nil or a value" results (an error that may be nil,
    a reply-to message that may be absent). */
module Wrappers {

  datatype Option<+T> = None | Some(value: T)
}
