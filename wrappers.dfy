/** A value that may be absent: stands for a C# reference argument that may be null. */
module Wrappers {
  datatype Option<+T> = None | Some(value: T)
}
