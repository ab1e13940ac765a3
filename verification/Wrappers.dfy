/** The optional value used where a Redis reply or a hash field may be absent. */
module Wrappers {
  datatype Option<+T> = None | Some(value: T)
}
