/** Names that every part of the model uses. */
module Basics {
  type JobId = string

  /** What two requests for the same download have in common. */
  type Key = string

  datatype Option<T> = None | Some(value: T)
}
