/** The usual optional-value datatype, used for parse results and pending requests. */
module Wrappers {

  datatype Option<+T> = None | Some(value: T)
}
