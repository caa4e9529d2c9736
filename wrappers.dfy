/** Values that may be absent: a null pointer, an out-parameter a validator did not fill. */
module Wrappers {

  datatype Option<+T> = None | Some(value: T)
}
