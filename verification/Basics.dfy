/** Names every module shares. */
module Basics {

  datatype Option<+T> = None | Some(value: T)

  /** A normalized workspace path. */
  type Path = string
}
