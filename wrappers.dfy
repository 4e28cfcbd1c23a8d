/** An optional value, for Java's nullable ids and for the tenant check's error, absent when the check passes. */
module Wrappers {
  datatype Option<T> = None | Some(value: T)
}
