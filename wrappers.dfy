/** An optional value: a preference that may be absent, a date override that may be missing. */
module Wrappers {
  datatype Option<T> = None | Some(value: T)
}
