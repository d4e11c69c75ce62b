/** Optional values and the success/error outcome of a request.

    `generate_speech` reports every failure as a user-facing error carrying
    one message string, so the error side of `Result` is a string.
 */
module Results {

  /** A value that may be absent (Python's `None`). */
  datatype Option<+T> = None | Some(value: T)

  /** Either a value, or the message of the error shown to the user. */
  datatype Result<+T> = Ok(value: T) | Err(message: string)

  /** Python truthiness of an optional string: present and non-empty. */
  predicate Truthy(s: Option<string>)
  {
    s.Some? && |s.value| > 0
  }

  /** The text of an optional string, the empty string when absent. */
  function TextOf(s: Option<string>): (t: string)
    ensures s.Some? ==> t == s.value
    ensures s.None? ==> t == ""
  {
    match s
    case Some(v) => v
    case None => ""
  }
}
