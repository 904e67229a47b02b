/** The Java `null` of a nullable value, made explicit. */
module Wrappers {
  datatype Option<+T> = None | Some(value: T)
}
