/** Small shared vocabulary: optional values, JavaScript truthiness of
    optional strings, and the HTTP replies the controllers send. */
module Common {

  datatype Option<+T> = None | Some(value: T)

  /** `!!v` for a string-valued request field: absent (`undefined`/`null`)
      and the empty string are falsy, every other string is truthy. */
  predicate Truthy(v: Option<string>) {
    v.Some? && v.value != ""
  }

  /** `v || fallback` for an optional string. */
  function OrElse(v: Option<string>, fallback: string): string {
    if Truthy(v) then v.value else fallback
  }

  /** An HTTP reply: a status code with either a JSON payload or the
      `{ message }` body every error path sends. */
  datatype Reply<+T> = Ok(status: int, value: T) | Err(status: int, message: string)

  const InternalError := "Internal server error"
  const NotFoundMessage := "Not found"
}
