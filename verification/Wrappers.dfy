/** What several parts of the kernel return when there may be nothing to return. */
module Wrappers {
  datatype Option<T> = None | Some(value: T)
}
