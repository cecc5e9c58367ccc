// The optional value shared by every module: None stands for a missing
// value or, where a Python call can raise, for the exception.

module Wrappers {

  datatype Option<T> = None | Some(value: T)
}
