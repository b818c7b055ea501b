/** Small shared vocabulary: an optional value, used for absent request fields,
    nullable database columns and JavaScript `null`/`undefined`. */
module Common {

  datatype Option<+T> = None | Some(value: T)

  /** Python's and JavaScript's falsiness for an optional string:
      absent (`None`/`null`/`undefined`) or empty. */
  predicate Blank(s: Option<string>)
  {
    s.None? || s.value == ""
  }
}
