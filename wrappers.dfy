/** The optional value used wherever the source returns `null` or may leave a field unset. */
module Wrappers {

  datatype Option<+T> = None | Some(value: T)
}
