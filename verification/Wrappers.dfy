/** A value that may be missing: an empty reply, a refused request, an exception. */
module Wrappers {
  datatype Option<+T> = None | Some(value: T)
}
