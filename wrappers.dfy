/** The optional-value datatype used for lookups that may find nothing
    (Java's `Optional` and nullable references). */
module Wrappers {

  datatype Option<+T> = None | Some(value: T)
}
