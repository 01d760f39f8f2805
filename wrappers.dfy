/** Optional values and results with an error, shared by every module. */
module Wrappers {

  /** A value that may be absent (a missing JSON field, a nil Swift optional). */
  datatype Option<+T> = None | Some(value: T)

  /** The value of an optional string, or the empty string when it is absent
      (the JavaScript idiom `x || ''` on a string-or-undefined value). */
  function OrEmpty(o: Option<string>): string
  {
    if o.Some? then o.value else ""
  }

  /** JavaScript truthiness of a string-or-undefined value: present and non-empty. */
  predicate Truthy(o: Option<string>)
  {
    o.Some? && o.value != ""
  }

  /** The outcome of an operation that returns nothing or throws an error. */
  datatype Outcome<+E> = Pass | Fail(error: E)
}
