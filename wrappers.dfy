/** An optional value, in place of a nullable reference, used for engine lookups that can come back empty. */
module Wrappers {

  /** Either a value or nothing, in place of a nullable reference. */
  datatype Option<+T> = None | Some(value: T)
}
