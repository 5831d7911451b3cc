/** Values shared by every part of the model: optional values, the three
    states a field of a JSON request body can be in, instants, and the
    replies the route handlers send. */
module Common {

  /** JavaScript strings are modelled as sequences of characters. */
  type Text = seq<char>

  datatype Option<+T> = None | Some(value: T)

  /** A field of a JSON request body: missing (`undefined`), `null`, or
      carrying a value. */
  datatype Value<+T> = Undefined | Null | Defined(value: T)

  /** JavaScript truthiness of a text-valued field: only a non-empty
      string is truthy. */
  predicate Truthy(v: Value<Text>) {
    v.Defined? && v.value != ""
  }

  /** A query-string parameter is either absent or a string; it is truthy
      when present and non-empty. */
  predicate Given(q: Option<Text>) {
    q.Some? && q.value != ""
  }

  /** A point in time, given by its UTC calendar fields (MongoDB's `$year`
      and `$month` read the first two). */
  datatype Instant = Instant(year: int, month: int, day: int, millis: int)

  /** The position of an instant on the time line; for instants whose
      fields are in range it orders them chronologically. */
  function Rank(t: Instant): int {
    ((t.year * 12 + (t.month - 1)) * 31 + (t.day - 1)) * 86400000 + t.millis
  }

  /** The reply of a route handler: a status code with a JSON body, or a
      status code with the `{ error: <message> }` body. */
  datatype Reply<+T> = Ok(code: int, body: T) | Err(code: int, message: Text)
}
