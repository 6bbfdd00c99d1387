/** Values exchanged between the screens and the outside world: JavaScript
    values that may be absent, the outcome of an HTTP request made through the
    API client, and the completion of an expression that may throw. */
module Values {

  datatype Option<+T> = None | Some(value: T)

  /** A text field of a JSON record or of the screen state: a string, or the
      JavaScript `null`/`undefined` (both handled alike by the screens). */
  type Field = Option<string>

  /** JavaScript truthiness of a possibly absent string: present and non-empty. */
  predicate Truthy(v: Field)
    ensures Truthy(v) ==> v.Some? && |v.value| > 0
    ensures v.None? || v == Some("") ==> !Truthy(v)
  {
    v.Some? && v.value != ""
  }

  /** The outcome of a request through the API client: the response body
      (a 2xx status), a rejection carrying the HTTP status of the response,
      or a rejection with no response at all (network failure and the like). */
  datatype Reply<+T> = Ok(data: T) | HttpError(status: int) | NoResponse

  /** The catch blocks of both screens test `error.response.status === 500`. */
  predicate IsServerError<T>(r: Reply<T>)
    ensures IsServerError(r) ==> !r.Ok? && !r.NoResponse?
    ensures r.HttpError? ==> (IsServerError(r) <==> r.status == 500)
  {
    r.HttpError? && r.status == 500
  }

  /** The completion of a JavaScript expression: a value, or a thrown TypeError. */
  datatype Completion<+T> = Normal(value: T) | Throw
}
