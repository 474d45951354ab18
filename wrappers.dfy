/** Option: a value that may be missing. Used here for computations that the
    Python source abandons by raising an exception. */
module Wrappers {

  datatype Option<+T> = None | Some(value: T)
}
