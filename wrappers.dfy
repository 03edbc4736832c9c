/** Small helper types shared by the other modules. */
module Wrappers {

  /** A value that may be missing (an `undefined` field or an unset variable). */
  datatype Option<+T> = None | Some(value: T)

  /** JavaScript truthiness of an optional string: present and not empty. */
  predicate Present(o: Option<string>)
  {
    o.Some? && o.value != ""
  }
}
