/** A value that may be missing: a NULL handle, a failed read, an address that is not returned. */
module Wrappers {
  datatype Option<T> = None | Some(value: T)
}
