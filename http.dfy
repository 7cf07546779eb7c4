/** The JSON responses the API routes return, and the two handler shapes every
    collection route shares: `GET` lists, `POST` checks the body and creates. */
module Http {
  import opened Wrappers

  /** What `await request.json()` gives a `POST` handler: `Unparsable` when the
      body is not JSON, otherwise the parsed value, None for `null`. */
  datatype Request<T> = Unparsable | Parsed(json: Option<T>)

  /** The payload, an `{ error }` object, or the framework's own error page for an
      exception that escapes the handler. */
  datatype Body<T> = Json(value: T) | Error(message: string) | Unhandled

  datatype Response<T> = Response(status: int, body: Body<T>)

  /** A route's three `POST` messages. */
  datatype PostMessages = PostMessages(noBody: string, missingFields: string, failed: string)

  /** The `try`/`catch` around a route's service call: 200 with the payload when
      the call succeeds, 500 with the route's own message when anything throws.
      The service's message never reaches the client. */
  function Reply<T>(outcome: Result<T>, failure: string): (r: Response<T>)
    ensures r.status == 200 <==> outcome.Ok?
    ensures r.status == 200 ==> r.body == Json(outcome.value)
    ensures r.status != 200 ==> r.status == 500 && r.body == Error(failure)
  {
    match outcome
    case Ok(v) => Response(200, Json(v))
    case Err(_) => Response(500, Error(failure))
  }

  /** A collection route's `POST`. The body is parsed before the `try`, so a body
      that is not JSON escapes the handler and the framework answers 500 without
      any of the route's messages. A `null` body, or one that fails the route's
      field check, gets 400 with the matching message. Only a body that passes is
      forwarded, and the creation's outcome is answered as `Reply` does. */
  function Post<D, T>(check: D -> bool, messages: PostMessages, request: Request<D>, created: Result<T>): (r: Response<T>)
    ensures request.Unparsable? ==> r == Response(500, Unhandled)
    ensures r.status == 400 <==> request.Parsed? && (request.json.None? || !check(request.json.value))
    ensures request == Parsed(None) ==> r.body == Error(messages.noBody)
    ensures request.Parsed? && request.json.Some? && !check(request.json.value) ==>
      r.body == Error(messages.missingFields)
    ensures r.status == 200 <==> request.Parsed? && request.json.Some? && check(request.json.value) && created.Ok?
    ensures r.status == 200 ==> r.body == Json(created.value)
    ensures request.Parsed? && r.status != 200 && r.status != 400 ==> r.status == 500 && r.body == Error(messages.failed)
  {
    match request
    case Unparsable => Response(500, Unhandled)
    case Parsed(None) => Response(400, Error(messages.noBody))
    case Parsed(Some(d)) =>
      if !check(d) then Response(400, Error(messages.missingFields)) else Reply(created, messages.failed)
  }
}
