/** Small value wrappers shared by every module. */
module Wrappers {

  /** A value that may be missing: an absent request field, a failed lookup, a NaN parse. */
  datatype Option<+T> = None | Some(value: T)

  /** JavaScript truthiness of an optional string: absent and "" are falsy. */
  predicate Truthy(s: Option<string>)
  {
    s.Some? && s.value != ""
  }
}
