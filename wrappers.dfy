/** The optional value used for the buffer's nullable fields and results. */
module Wrappers {

  /** `None` stands for a C# `null` reference or an absent value. */
  datatype Option<+T> = None | Some(value: T)
}
