/** Values of the Java runtime that the gateway's client layer relies on:
    references that may be null, and calls that may throw. */
module JavaValues {

  /** A Java reference that may be null: `None` stands for null. */
  datatype Option<+T> = None | Some(value: T)

  /** A Java `String` field or variable, which may hold null. */
  type JString = Option<string>

  /** The result of a call into code outside the model: it either returns
      a value or throws an exception. */
  datatype Outcome<+T> = Returned(value: T) | Threw

  /** `s.isEmpty()` on a non-null string. */
  predicate IsNonEmpty(s: JString)
  {
    s.Some? && s.value != ""
  }
}
