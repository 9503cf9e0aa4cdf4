/** An optional value shared by the other modules. */
module Wrappers {

  /** A value that may be absent: a Go `error` that may be nil, a lookup that may miss. */
  datatype Option<+T> = None | Some(value: T)
}
