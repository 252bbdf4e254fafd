/** The usual optional-value datatype, used for the absent user name and for parsers. */
module Wrappers {
  datatype Option<+T> = None | Some(value: T)
}
