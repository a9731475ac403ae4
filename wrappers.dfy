/** Small helper datatypes shared by the whole model. */
module Wrappers {

  /** A value that may be absent: stands for a C# reference that may be null. */
  datatype Option<+T> = None | Some(value: T)
}
