/** The optional value used wherever the source has a nullable property or a "false on miss" result. */
module Wrappers {

  datatype Option<+T> = None | Some(value: T)

}
