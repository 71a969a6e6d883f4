/** The usual optional value. */
module Opt {
  datatype Option<+T> = None | Some(value: T)
}
