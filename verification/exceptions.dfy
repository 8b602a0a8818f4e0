/** The organizer's exception hierarchy. `ConfigError`, `RuleError` and
    `PathError` are the three kinds derived from `OrganizerError`; every other
    Python exception that can escape one of the modelled operations (an
    `AttributeError` from calling `.lower()` on a non-string, a `KeyError`
    from a missing dictionary key, a parse error from `literal_eval`, ...)
    is kept apart as `Unhandled`, carrying the Python exception's name. */
module Exceptions {

  datatype Error =
    | ConfigError
    | RuleError
    | PathError
    | Unhandled(exception: string)
  {
    /** True for the kinds a caller can map to a distinct exit status. */
    predicate IsOrganizerError() {
      !Unhandled?
    }
  }

  /** What reading a file whose bytes are not UTF-8 raises: no loader's
      `except (IOError, JSONDecodeError)` catches it. */
  const NotUtf8: Error := Unhandled("UnicodeDecodeError")
}
