/**
 * What every route handler and every client component share: the session
 * guard, the status codes, and the JSON body of a failed request.
 */
module Http {
  import opened Wrappers

  const OK: int := 200
  const CREATED: int := 201
  const BAD_REQUEST: int := 400
  const UNAUTHORIZED: int := 401
  const NOT_FOUND: int := 404
  const SERVER_ERROR: int := 500

  /**
   * `session?.user?.id` is truthy. `None` stands for a missing session, user
   * or id; the empty id is falsy as well.
   */
  predicate SignedIn(userId: Option<string>) {
    userId.Some? && userId.value != ""
  }

  /** A toast notification a component shows. */
  datatype Toast = Success(text: string) | Failure(text: string)

  /** The JSON body of a failed response. */
  datatype ErrorBody = ErrorBody(error: Option<string>, message: Option<string>)

  /** Every route in the model fails with `{ error: reason }`. */
  function RouteError(reason: string): ErrorBody {
    ErrorBody(Some(reason), None)
  }

  /** JavaScript truthiness of an optional string. */
  predicate Truthy(s: Option<string>) {
    s.Some? && s.value != ""
  }

  /**
   * The toast a component shows for a failed request, as written:
   * `error.message || fallback`.
   */
  function ToastAsWritten(body: ErrorBody, fallback: string): (shown: string)
    ensures shown == fallback || Some(shown) == body.message
  {
    if Truthy(body.message) then body.message.value else fallback
  }

  /** The route's reason never reaches the user: the client reads a field the routes never set. */
  lemma ReasonNeverShown(reason: string, fallback: string)
    ensures ToastAsWritten(RouteError(reason), fallback) == fallback
  {
  }

  /**
   * The toast as evidently intended: the route's `error` reason, then a
   * `message`, then the fallback.
   */
  function ToastText(body: ErrorBody, fallback: string): (shown: string)
    ensures Truthy(body.error) ==> shown == body.error.value
    ensures !Truthy(body.error) && !Truthy(body.message) ==> shown == fallback
    ensures shown == fallback || Some(shown) == body.error || Some(shown) == body.message
  {
    if Truthy(body.error) then body.error.value
    else if Truthy(body.message) then body.message.value
    else fallback
  }

  /** With the intended reading, a route's non-empty reason is what the user sees. */
  lemma ReasonShown(reason: string, fallback: string)
    requires reason != ""
    ensures ToastText(RouteError(reason), fallback) == reason
  {
  }
}
