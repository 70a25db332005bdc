/** A value that may be absent: a cache miss, or a field the builder left unset. */
module Wrappers {
  datatype Option<T> = None | Some(value: T)
}
