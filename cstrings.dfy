/** C strings as the agent passes them around: a `char*` that may be NULL. */
module CStrings {

  datatype Option<+T> = None | Some(value: T)

  /** A `char*`: `None` is the NULL pointer, `Some(s)` points at the text `s`. */
  type CString = Option<string>

  /** `strValid`: the string is usable, that is, not NULL and not empty. */
  predicate StrValid(s: CString) {
    s.Some? && s.value != ""
  }
}
