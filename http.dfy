/** What the client hands to axios and what comes back, with axios itself abstracted:
    the network's answer is an input of every operation, never computed. */
module Http {
  import opened JsValue

  datatype HttpMethod = GET | POST | PUT | DELETE

  /** The request configuration the client passes to axios. */
  datatype Request = Request(
    verb: HttpMethod,
    url: string,
    data: Value,
    headers: map<string, Value>,
    params: Value,
    withCredentials: bool)

  /** How the axios call settles: it resolves with a response object or rejects with an
      error (whose `response` field is absent when no response was received). */
  datatype AxiosResult = Responded(response: Value) | Failed(error: Value)

  /** axios rejects with an `AxiosError` object, never with null, undefined or a primitive. */
  type AxiosOutcome = o: AxiosResult | o.Responded? || o.error.Obj? witness Responded(Undefined)

  /** How an awaited call of the client's own code settles: it returns a value or throws one. */
  datatype Completion = Resolved(value: Value) | Rejected(thrown: Value)
}
