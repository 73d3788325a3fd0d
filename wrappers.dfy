/** Small shared datatypes: an optional value and the way a Python call ends. */
module Wrappers {

  /** An optional value; `None` stands for Python's `None` (or for a call that raised). */
  datatype Option<+T> = None | Some(value: T)

  /** How a statement sequence that may raise ends: normally, or by an uncaught
      Python exception (TypeError, KeyError, IndexError) that leaves the hook. */
  datatype Completion = Done | Raised

  /** Python truthiness of an optional string: present and not empty. */
  predicate Truthy(s: Option<string>)
  {
    s.Some? && s.value != ""
  }
}
