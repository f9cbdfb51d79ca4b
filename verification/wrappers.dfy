/** An optional value, for attributes and lookups that may be absent. */
module Wrappers {
  datatype Option<T> = None | Some(value: T)
}
