/** The usual optional value, for results that may be absent. */
module Opt {
  datatype Option<T> = None | Some(value: T)
}
