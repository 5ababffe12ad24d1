/** The optional value that Kotlin expresses with a nullable type (`T?`). */
module Wrappers {
  datatype Option<+T> = None | Some(value: T)
}
