/** Small value wrappers shared by both sketches. */
module Wrappers {

  /** A value that may be absent: a JavaScript `undefined` becomes `None`. */
  datatype Option<+T> = None | Some(value: T)
}
