/** The optional value used for the answers of the lookup services. */
module Wrappers {

  datatype Option<+T> = None | Some(value: T)
}
