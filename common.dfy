/** Types shared by the cart and order controllers. */
module Common {

  /** A value that may be absent, as an optional request field or an unset date is. */
  datatype Option<+T> = None | Some(value: T)

  /** Identifiers of users and products, compared as their string forms. */
  type UserId = string
  type ProductId = string

  /** A point in time (milliseconds since the epoch); the clock is always passed in. */
  type Time = int

  /** A string request field is missing when it is absent or empty: JavaScript's `!x` on a string. */
  predicate Blank(s: Option<string>)
  {
    s.None? || s.value == ""
  }
}
