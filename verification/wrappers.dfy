/** An optional value: `None` stands for a C# `null` reference or an absent entry. */
module Wrappers {

  datatype Option<+T> = None | Some(value: T)
}
