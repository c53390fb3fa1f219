/** An optional value: `None` stands for the source's null pointer or a failed query. */
module Wrappers {
  datatype Option<+T> = None | Some(value: T)
}
