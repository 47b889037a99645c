/** The conventional Some/None datatype, used wherever the handler may have no value. */
module Wrappers {

  datatype Option<+T> = None | Some(value: T)
}
