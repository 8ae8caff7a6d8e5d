// The optional value used wherever the source returns a null pointer, an
// error code or "nothing".

module Wrappers {

  datatype Option<T> = None | Some(value: T)
}
