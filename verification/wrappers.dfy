/** The optional-value wrapper shared by the other modules. */
module Wrappers {

  /** A value that may be absent; `None` also stands for a null reference. */
  datatype Option<+T> = None | Some(value: T)
}
