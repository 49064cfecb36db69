/** Small value wrappers shared by the queue model. */
module Wrappers {

  /** A value that may be absent: the model's stand-in for `null`. */
  datatype Option<+T> = None | Some(value: T)
}
