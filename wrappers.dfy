/** The optional value used for a request header that may be absent. */
module Wrappers {

  datatype Option<+T> = None | Some(value: T)
}
