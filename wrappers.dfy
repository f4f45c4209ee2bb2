// Swift's Optional, spelled the Dafny way.

module Wrappers {

  datatype Option<T> = None | Some(value: T)
}
