/** The optional value used wherever the scripts return `None` on failure. */
module Wrappers {

  datatype Option<+T> = None | Some(value: T)
}
