/**
 * The responses the two webhook routes produce.
 */
module Http {
  import opened Js
  import Store

  /** The second field of a JSON body next to `message`. */
  datatype Payload =
    | ErrorField(error: Thrown)
    | TransactionField(transaction: Option<Store.TransactionRecord>)
    | UserField(user: Option<Store.User>)

  datatype Body = Text(text: string) | Json(message: string, payload: Payload)

  datatype Response = Response(status: int, body: Body)

  /** How a request ends: with a response, or with an exception the route does
      not catch (the framework then answers on its own). */
  datatype Outcome = Responded(response: Response) | Raised(error: Thrown)

  /** `NextResponse.json({ message, … })`, whose status defaults to 200. */
  function JsonResponse(message: string, payload: Payload): Response {
    Response(200, Json(message, payload))
  }

  /** `new Response('', { status: 200 })`. */
  const EmptyOk := Response(200, Text(""))

  /** The message of a JSON response, if the outcome is one. */
  function MessageOf(o: Outcome): Option<string> {
    if o.Responded? && o.response.body.Json? then Some(o.response.body.message) else None
  }
}
